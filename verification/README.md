# PeaceNet client core in Dafny

A model of the stateful core of the PeaceNet web client, with proofs. The
core has five parts.

- **Chapter player** (`src/app/pages/EducationalHub.tsx`). A learner steps
  through a chapter's slides with Next and Previous. The quiz opens after the
  last slide. The learner picks an option and checks the answer, as often as
  needed. A correct answer schedules the host's completion callback, and the
  host unmounts the player when the callback runs. The hub page that hosts the
  player (tab, open module, open chapter) is modelled too.
- **Support chat** (`src/app/pages/AISupportAgent.tsx`). The transcript opens
  with a greeting and only ever grows at its end. A non-blank send appends the
  user's message and then one bot message: the trimmed reply, a fixed prompt
  when the reply is empty, or a fixed apology when the request throws. The
  typing indicator is cleared again either way. "Clear Chat" restores the
  greeting.
- **Service client** (`src/app/lib/gemini.ts`). Covers:
  - the API-key guard;
  - the mapping of the transcript into request contents (`user` stays
    `user`, `bot` becomes `model`, one text part each);
  - the trimmed reply;
  - the paginated model listing, which follows `nextPageToken` until it is
    absent or empty and fails on the first non-ok page.
- **Community feed** (`src/app/pages/CommunitySpace.tsx`). A new post goes on
  top. A comment is appended to the post with the given id. The feed is shown
  through a category filter and an optional tag filter.
- **Booking flow** (`src/app/pages/ExpertConsultation.tsx`). The calendar
  collects a day and a time slot. Confirming puts an upcoming appointment
  with the fixed meeting link on top of the list. Closing the success dialog
  shows the appointments tab.

Each page's state is a Dafny `class` whose fields are the page's `useState`
variables, plus what the component reads from outside them:
`ChapterPlayer.chapter` is the `chapter` prop, `ChatSession.apiKey` is the
service client's module-level key, and `BookingCalendar.days` is the list of
day labels, which the code recomputes on every render.
`ChapterPlayer.completionsScheduled` counts the delayed `onComplete` calls.
Each event handler is a method, and its contract states the complete new
state. `Next`, `Choose`, `Submit`, `Send`, `SubmitPost` and `AddComment` are
proved against pure functions that have their own lemmas. `Prev` is proved
against `Retreat`, which `PrevEnabled` ties to the disabled test of the
Previous button (EducationalHub.tsx:296). `ConfirmBooking`'s contract gives
the new appointment list directly, and `Consultation.Valid` keeps every
appointment Upcoming with the meeting link. The other handlers are setters,
and their contracts give the field they set. The classes' `Valid` predicates are kept by every handler, but no
further lemmas are proved about `ChatSession.Valid` or `Consultation.Valid`.
Examples:

- `Next` is proved against `Advance`, and `WalkThrough` proves where N
  presses of Next lead.
- `Send` is proved against `GeminiReply` and `BotText`, and
  `BotTextNeverBlank` proves that the bot never posts a blank message.
- `SubmitPost` is proved against `NewPost`, and `FilteredPosts` against
  `Filter`. `PrependedPostFiltered` shows where a new post appears in the
  filtered feed.

Each event handler runs as one atomic step. Values the code reads from the
clock become parameters: the ids from `Date.now()` and the calendar's day
labels. Remote calls become parameters too: the generation service is a
function from request to response, and the listing endpoint is the sequence
of its responses.

`!x.trim()` is modelled with JavaScript's whitespace set (module `Text`).
It holds exactly for strings that are empty or all whitespace
(`Text.TrimEmptyIffBlank`). JavaScript truthiness is written out where the
code relies on it: an empty API key, page token or selected time counts as
absent.

A correct answer leaves "Check Answer" enabled (EducationalHub.tsx:282), and
every correct submission schedules another delayed `onComplete`
(EducationalHub.tsx:191-197). The model counts scheduled completions, and
`TwoSlideWalkThrough` shows a second correct submission scheduling a second
one. `BookingWalkThrough` is the matching scenario for the booking flow: book
an expert, pick a day and a slot, confirm, close the dialog.

## Model

| member | source | states |
|---|---|---|
| Text.Trim | src/app/lib/gemini.ts:49 | `trim` leaves a string that neither starts nor ends with whitespace and is no longer than the input |
| Text.TrimStart | src/app/lib/gemini.ts:49 | dropping leading whitespace leaves a suffix of the input that does not start with whitespace |
| Text.TrimEnd | src/app/lib/gemini.ts:49 | dropping trailing whitespace leaves a prefix of the input that does not end with whitespace |
| Text.LeadingIsBlank | src/app/lib/gemini.ts:49 | everything `TrimStart` cuts off is whitespace |
| Text.TrailingIsBlank | src/app/lib/gemini.ts:49 | everything `TrimEnd` cuts off is whitespace |
| Text.TrimIsInfix | src/app/lib/gemini.ts:49 | the trimmed string is a contiguous piece of the input, with only whitespace before and after it |
| Text.TrimIdempotent | src/app/lib/gemini.ts:49 | trimming twice gives the same as trimming once |
| Text.TrimOfTrimmed | src/app/lib/gemini.ts:49 | a string with no surrounding whitespace is its own trim |
| Text.BlankIffAllSpace | src/app/pages/AISupportAgent.tsx:35 | a string counts as blank exactly when every character is whitespace |
| Text.TrimEmptyIffBlank | src/app/pages/AISupportAgent.tsx:35 | `!s.trim()` holds exactly when the string is empty or all whitespace, in both directions |
| Text.TrimsToEmpty | src/app/pages/AISupportAgent.tsx:156 | the `!s.trim()` test used by the enabled-state of buttons is true exactly for blank strings |
| Text.CheckBlank | src/app/pages/CommunitySpace.tsx:87 | the `!s.trim()` guard of the submit handlers returns true exactly for blank strings |
| Text.TrimmedNonEmptyIsNotBlank | src/app/lib/gemini.ts:49 | a non-empty trimmed string is not blank |
| Gemini.GetModel | src/app/lib/gemini.ts:29-39 | fails with the missing-key error exactly when the key is unset or empty; otherwise builds the model with that key, the model name and the persona instruction |
| Gemini.ToContents | src/app/lib/gemini.ts:43-46 | one request entry per message, in order; the role is `user` exactly for user messages and `model` exactly for bot messages; each entry has exactly one part holding the message text |
| Gemini.ContentsRoundTrip | src/app/lib/gemini.ts:43-46 | the transcript can be read back from the request contents: roles, texts and order are all kept |
| Gemini.ContentsOfAppend | src/app/lib/gemini.ts:43-46 | converting two pieces of a transcript and joining them gives the conversion of the whole transcript |
| Gemini.BuildRequest | src/app/lib/gemini.ts:41-48 | without a key no request is built; otherwise the request carries the converted transcript and the configured key |
| Gemini.GeminiReply | src/app/lib/gemini.ts:41-50 | without a key it fails before the service is called; with a key it fails exactly when the service throws; a successful reply is `Trim` of the service's text, hence trimmed, no longer than that text, and equal to it when it was already trimmed |
| Gemini.AllModelsOfAppend | src/app/lib/gemini.ts:79-81 | the collected models keep page order: the models of two runs of pages are those of the first run followed by those of the second |
| Gemini.AllModels | src/app/lib/gemini.ts:79-81 | the collected models are exactly the models of the given pages: every listed model comes from some page, and every model of every page is listed |
| Gemini.StopIndex | src/app/lib/gemini.ts:60-83 | the loop's last fetch is the first response that is not ok or has no non-empty token; every earlier response continues the loop |
| Gemini.StopsAfterContinue | src/app/lib/gemini.ts:83 | after a response that continues the loop, the rest of the responses still contain one that stops it |
| Gemini.ListGeminiModels | src/app/lib/gemini.ts:52-86 | without a key it fails and nothing is fetched; with a key it makes exactly the fetches of `FetchPages` and returns its result |
| Gemini.FetchPages | src/app/lib/gemini.ts:57-85 | fetches up to and including the first stopping response; the first fetch has no page token and each later one carries the previous page's token; a non-ok response fails with its status and body and no partial list; otherwise the result is all fetched models in page order |
| SupportChat.History | src/app/pages/AISupportAgent.tsx:43 | the transcript handed to the service has the same messages, roles and texts in the same order |
| SupportChat.BotText | src/app/pages/AISupportAgent.tsx:44-61 | the bot posts the reply when it is non-empty, the "share a bit more" prompt when it is empty, and the fixed apology when the request threw |
| SupportChat.BotTextNeverBlank | src/app/pages/AISupportAgent.tsx:44-61 | whatever the key, the transcript and the service do, the bot never posts an empty or whitespace-only message |
| SupportChat.FirstSendHidesSuggestions | src/app/pages/AISupportAgent.tsx:129 | the suggested prompts (shown while fewer than three messages exist) are shown on a fresh transcript, and the first completed send hides them |
| SupportChat.SuggestionsVisible | src/app/pages/AISupportAgent.tsx:129 | the suggested-prompt row is shown on a fresh or cleared transcript |
| SupportChat.PromptsAreNotBlank | src/app/pages/AISupportAgent.tsx:14-19 | no suggested prompt is blank, so clicking one always sends it |
| SupportChat.ChatSession.constructor | src/app/pages/AISupportAgent.tsx:22-24 | the page starts with the greeting alone, an empty input and no typing indicator |
| SupportChat.ChatSession.SetInput | src/app/pages/AISupportAgent.tsx:152 | typing replaces the input and leaves the transcript alone |
| SupportChat.ChatSession.CanSubmit | src/app/pages/AISupportAgent.tsx:156 | the send button is enabled exactly when the input is not blank and no reply is awaited |
| SupportChat.ChatSession.BeginSend | src/app/pages/AISupportAgent.tsx:34-40 | blank text changes nothing and sends nothing; otherwise the user message is appended, the input is cleared, the typing indicator is set, and the request is the earlier transcript followed by the new message |
| SupportChat.ChatSession.CompleteSend | src/app/pages/AISupportAgent.tsx:42-64 | exactly one bot message (the text `BotText` chooses) is appended, and the typing indicator is cleared on success and on failure |
| SupportChat.ChatSession.Send | src/app/pages/AISupportAgent.tsx:34-65 | blank text is a no-op; otherwise the transcript grows by exactly the user message and then the bot's answer to the whole transcript including it; every earlier message is kept; the input is cleared, the indicator is off and the suggested prompts are hidden |
| SupportChat.ChatSession.Clear | src/app/pages/AISupportAgent.tsx:84 | "Clear Chat" restores the greeting alone |
| EducationalHub.Advance | src/app/pages/EducationalHub.tsx:175-181 | Next moves one slide on before the last slide and opens the quiz on the last slide; the index stays within the slides and the answer state is untouched |
| EducationalHub.Retreat | src/app/pages/EducationalHub.tsx:183-189 | Previous leaves the quiz for the last slide, otherwise moves one slide back, and does nothing on the first slide |
| EducationalHub.SelectOption | src/app/pages/EducationalHub.tsx:268 | choosing an option replaces the selection and clears the verdict, leaving navigation alone |
| EducationalHub.SubmitAnswer | src/app/pages/EducationalHub.tsx:191-202 | the verdict is correct exactly when the selection is the correct index and incorrect otherwise; nothing else changes |
| EducationalHub.AdvanceTimes | src/app/pages/EducationalHub.tsx:175-181 | any number of Next presses keeps the player within the chapter's slides |
| EducationalHub.WalkThrough | src/app/pages/EducationalHub.tsx:175-181 | from the start of a chapter of N slides, the first N-1 presses of Next visit the slides in order, the N-th opens the quiz on the last slide, and later presses change nothing |
| EducationalHub.AdvanceLast | src/app/pages/EducationalHub.tsx:175-181 | k+1 presses of Next are k presses followed by one more |
| EducationalHub.RetryAfterMiss | src/app/pages/EducationalHub.tsx:191-202 | a wrong answer is judged incorrect, and choosing the correct option afterwards and submitting again is judged correct; there is no lockout |
| EducationalHub.ChapterPlayer.constructor | src/app/pages/EducationalHub.tsx:168-171 | a player starts on the first slide, without quiz, selection or verdict |
| EducationalHub.ChapterPlayer.Next | src/app/pages/EducationalHub.tsx:175-181 | the new state is `Advance` of the old one; the player stays within its slides |
| EducationalHub.ChapterPlayer.Prev | src/app/pages/EducationalHub.tsx:183-189 | the new state is `Retreat` of the old one; the player stays within its slides |
| EducationalHub.ChapterPlayer.Choose | src/app/pages/EducationalHub.tsx:268 | the new state is `SelectOption` of the old one |
| EducationalHub.ChapterPlayer.Submit | src/app/pages/EducationalHub.tsx:191-202 | the new state is `SubmitAnswer` of the old one, and one completion is scheduled exactly when the answer is correct |
| EducationalHub.ChapterPlayer.SubmitEnabled | src/app/pages/EducationalHub.tsx:282 | "Check Answer" is enabled exactly when an option is selected |
| EducationalHub.ChapterPlayer.PrevEnabled | src/app/pages/EducationalHub.tsx:296 | Previous is enabled exactly when pressing it would change the state |
| EducationalHub.Hub.constructor | src/app/pages/EducationalHub.tsx:327-329 | the hub opens on the modules tab with no module or chapter open |
| EducationalHub.Hub.SelectTab | src/app/pages/EducationalHub.tsx:351 | a tab button switches the tab and closes the open module |
| EducationalHub.Hub.OpenModule | src/app/pages/EducationalHub.tsx:419 | a module card opens that module's chapter list |
| EducationalHub.Hub.CloseModule | src/app/pages/EducationalHub.tsx:366 | "Back to Modules" closes the module |
| EducationalHub.Hub.OpenChapter | src/app/pages/EducationalHub.tsx:402 | a chapter's start button mounts a player for it |
| EducationalHub.Hub.CloseChapter | src/app/pages/EducationalHub.tsx:472 | the player's close button drops the chapter |
| EducationalHub.Hub.ChapterComplete | src/app/pages/EducationalHub.tsx:331-335 | a completion unmounts the player and leaves the tab and the module alone |
| CommunitySpace.NewPostFromForm | src/app/pages/CommunitySpace.tsx:89-100 | a new post carries the draft's text, category and anonymity; its author is "Anonymous" exactly when the switch is on and "Guest_User" otherwise; it has no reactions, no comments and the single tag "New" |
| CommunitySpace.NewPost | src/app/pages/CommunitySpace.tsx:89-100 | a new post's author is "Anonymous" exactly when the anonymity switch is on, it carries the draft's text and it has no comments (NewPostFromForm states every field) |
| CommunitySpace.WithComment | src/app/pages/CommunitySpace.tsx:111-124 | every post with the id gets the comment appended; every other post, and the number and order of posts, stay the same |
| CommunitySpace.NewComment | src/app/pages/CommunitySpace.tsx:115-120 | a new comment carries the given id and the typed text, and is posted as "You" |
| CommunitySpace.WithCommentCount | src/app/pages/CommunitySpace.tsx:111-124 | adding a comment adds one comment per post carrying the id |
| CommunitySpace.Filter | src/app/pages/CommunitySpace.tsx:128-132 | the shown feed is never longer than the feed |
| CommunitySpace.Matches | src/app/pages/CommunitySpace.tsx:129-131 | the "All" tab with no tag lets every post through; a passing post is in the chosen category (unless "All") and carries the selected non-empty tag (FilterMembers lifts this to the shown feed) |
| CommunitySpace.FilterMembers | src/app/pages/CommunitySpace.tsx:128-132 | a post is shown exactly when it is in the feed and matches the category (or "All") and the active non-empty tag |
| CommunitySpace.FilterIsSubsequence | src/app/pages/CommunitySpace.tsx:128 | the filter only removes posts; it never reorders or repeats them |
| CommunitySpace.FilterOfAppend | src/app/pages/CommunitySpace.tsx:128-132 | filtering two runs of posts gives the two filtered runs, in order |
| CommunitySpace.FilterAllKeepsFeed | src/app/pages/CommunitySpace.tsx:129-130 | category "All" with no tag shows the whole feed unchanged |
| CommunitySpace.PrependedPostFiltered | src/app/pages/CommunitySpace.tsx:102 | a post put on top shows first exactly when it matches, and the rest of the shown feed is unchanged |
| CommunitySpace.CommunityFeed.constructor | src/app/pages/CommunitySpace.tsx:71-83 | the page starts on "All" with no tag, a closed composer, an empty draft in "Experience" posted anonymously, no open comments and an empty comment box |
| CommunitySpace.CommunityFeed.FilteredPosts | src/app/pages/CommunitySpace.tsx:128-132 | the feed as shown holds exactly the matching posts of the feed |
| CommunitySpace.CommunityFeed.SelectCategory | src/app/pages/CommunitySpace.tsx:156 | a category chip sets the category filter |
| CommunitySpace.CommunityFeed.SelectTag | src/app/pages/CommunitySpace.tsx:222 | a post's tag sets the tag filter |
| CommunitySpace.CommunityFeed.ClearTag | src/app/pages/CommunitySpace.tsx:174 | the chip's cross clears the tag filter |
| CommunitySpace.CommunityFeed.ToggleComments | src/app/pages/CommunitySpace.tsx:241 | the comment button opens a post's comments, or closes them when they are already open |
| CommunitySpace.CommunityFeed.SetComposerOpen | src/app/pages/CommunitySpace.tsx:142 | the "Share Your Story" button opens the composer; its backdrop and close button close it |
| CommunitySpace.CommunityFeed.EditDraft | src/app/pages/CommunitySpace.tsx:360 | the composer's fields set the draft text, category and anonymity |
| CommunitySpace.CommunityFeed.SetCommentInput | src/app/pages/CommunitySpace.tsx:287 | typing replaces the comment box |
| CommunitySpace.CommunityFeed.CanComment | src/app/pages/CommunitySpace.tsx:293 | a comment's send button is enabled exactly when the comment box is not blank |
| CommunitySpace.CommunityFeed.SubmitPost | src/app/pages/CommunitySpace.tsx:85-106 | a blank draft changes nothing; otherwise the post built from the draft goes on top, the older posts follow in order, the composer closes and the draft is cleared |
| CommunitySpace.CommunityFeed.AddComment | src/app/pages/CommunitySpace.tsx:108-126 | blank input changes nothing; otherwise the comment is appended to the post(s) with the id, all else stays, and the comment box is cleared |
| ExpertConsultation.BookingCalendar.constructor | src/app/pages/ExpertConsultation.tsx:72-84 | a calendar offers fourteen days and starts with no day and no time selected |
| ExpertConsultation.BookingCalendar.PickDate | src/app/pages/ExpertConsultation.tsx:103 | a day button selects that day |
| ExpertConsultation.BookingCalendar.PickTime | src/app/pages/ExpertConsultation.tsx:125 | a slot button, shown once a day is chosen, selects that time |
| ExpertConsultation.BookingCalendar.ConfirmEnabled | src/app/pages/ExpertConsultation.tsx:146 | "Confirm Booking" is enabled exactly when a day and a non-empty time are selected |
| ExpertConsultation.BookingCalendar.Confirm | src/app/pages/ExpertConsultation.tsx:141-145 | the booking is passed on exactly when a day and a time are selected, which is exactly when the button is enabled, and carries the day's label and the time |
| ExpertConsultation.SlotsAreNonEmpty | src/app/pages/ExpertConsultation.tsx:86 | every offered time slot is a non-empty string |
| ExpertConsultation.Consultation.constructor | src/app/pages/ExpertConsultation.tsx:187-195 | the page opens on the browse tab with no expert, no dialogs and no appointments |
| ExpertConsultation.Consultation.CalendarVisible | src/app/pages/ExpertConsultation.tsx:353 | the calendar is only shown with an expert selected |
| ExpertConsultation.Consultation.SelectTab | src/app/pages/ExpertConsultation.tsx:241 | a tab button switches the tab |
| ExpertConsultation.Consultation.BookClick | src/app/pages/ExpertConsultation.tsx:197-200 | "Book" selects the expert and opens the calendar |
| ExpertConsultation.Consultation.CancelBooking | src/app/pages/ExpertConsultation.tsx:371 | the calendar's close button and backdrop close it and keep the expert |
| ExpertConsultation.Consultation.ConfirmBooking | src/app/pages/ExpertConsultation.tsx:202-219 | without an expert nothing happens; otherwise exactly one upcoming appointment with the expert, date, time and meeting link goes on top, the older ones follow in order, the calendar closes and the success dialog opens; all appointments stay upcoming with the link |
| ExpertConsultation.Consultation.SuccessClose | src/app/pages/ExpertConsultation.tsx:221-225 | closing the dialog hides it, forgets the expert and shows the appointments tab |

## Left out

- Rendering, animations, scrolling and the toast notifications are not modelled. Only the state that decides what is shown is kept.
- The 1500 ms delay before `onComplete` is not modelled. A correct submission counts as one scheduled completion (`completionsScheduled`). The host's `ChapterComplete` is the callback firing.
- Async interleaving is not modelled; `handleSend` runs as one atomic step. In the code, a reply that arrives after "Clear Chat" is still appended to the cleared transcript, and a second send can start while a reply is awaited. The model does not capture either.
- `Date.now()` ids are parameters. The model does not assume they are unique, which is why `AddComment` is stated for every post carrying the id.
- The calendar's day labels (`toLocaleDateString`) come from the clock and the locale and are given to the calendar.
- The vendor client library and `fetch` are not modelled. The service is a function from request to response, and the listing endpoint is the sequence of its responses. A JSON body that fails to parse is not modelled.
- Gemini.ListGeminiModels: requires that, with a key, the endpoint eventually returns a response that stops the loop. An endpoint that keeps handing out tokens forever makes the code loop forever, and the model does not capture that.
- Gemini.FetchPages: has the same requirement (`Stops(pages)`), for the same reason; it bounds the loop.
- Error messages are structured values (`MissingApiKey`, `GenerationFailed`, `ListFailed(status, body)`), not the formatted strings. `console.log` of each page is not modelled.
- The call to `listGeminiModels` in the chat page's effect, which runs on every transcript or typing change and whose result is unused, is not modelled.
- The mock catalogues (modules, resources, posts, experts) are not modelled; the classes take their initial data as parameters. The resources tab and its search box hold no state.
- A chapter with no slides: the model keeps the index at 0 and lets Next open the quiz. Rendering such a chapter would read a missing slide, which is not modelled.
- Reactions, sharing and reporting on posts have no handlers in the page and are not modelled.
- Expert ratings are `real`; ratings are displayed only, so no floating-point behaviour is involved.
