# vms_fe client logic in Dafny

This project models the browser client of a volunteer-management system.
Volunteers browse upcoming events, apply to them, chat with event managers
and keep a profile. Event managers create and delete events, review
applications, broadcast messages to accepted volunteers, publish training
videos and rate the volunteers of a finished event.

Each page of the client is a React component that keeps state and changes it
in event handlers. Every such page is a Dafny `class` here. Its fields are the
component's state, and each handler is a `method` with a `modifies` clause.
Where a page's behaviour needs reasoning across several steps, the handler's
`ensures` ties the new state to a pure step function, such as
`VolunteerChat.Receive` or `SendMessages.Sent`. The lemmas next to that
function prove what the page promises. Pure helpers of the source become
functions, for example `getFullImageUrl`, the search filters, the status
label and the page-count arithmetic.

Every REST call is an input to the handler that makes it. The value
`Base.Response<T>` is either `Ok(data)` or
`Failed(HttpError(status, body))`. A `None` status stands for a request
that got no response. JavaScript's `x || fallback` on strings is
`Base.OrDefault`: an empty string counts as missing.

Modules:

| module | models |
|---|---|
| `Base`, `Strings`, `Seqs` | shared values: responses, truthiness, `trim`, ASCII `toLowerCase`, `includes`, `filter`, a `sort` proved stable (`Seqs.SortByStable`) |
| `Session` | `localStorage` and the two axios interceptors of `src/api.js` |
| `Theme` | `src/context/ThemeContext.js` |
| `Landing` | the counting-up statistics of `src/components/LandingPage.js` |
| `ChatThread` | what both chat pages share: reply composition, date separators, media rendering |
| `VolunteerChat`, `EventManagerChat` | the two chat pages |
| `SendMessages` | the manager's broadcast form |
| `Training` | training videos: filter, upload, delete, reorder, video URLs |
| `Events`, `VolunteerEvents`, `EventManagerEvents` | the event lists: search, paging, applying, deleting |
| `Profile` | fetching, editing and saving a profile |
| `ManageApplications` | accepting and rejecting applications |
| `EventCompletion` | rating the volunteers of a completed event |
| `UserGuide` | the in-app guide: role switch, expandable cards, search |
| `CreateEvent` | the event form |

Three behaviours one might expect of a chat client are absent from the code,
and the model follows the code:

- Selecting a conversation does not by itself reset its unread counter. The
  counter is reset only when that conversation's history loads
  successfully (`src/components/VolunteerChat.js:79-82`).
- A message from a sender not yet in the sidebar adds no sidebar entry. Only
  the unread map changes, and the sidebar lists only what `/chat/senders`
  returned.
- A reply is not appended optimistically. The message the server returns
  is appended after the post succeeds
  (`src/components/VolunteerChat.js:103`).

## Model

| member | source | states |
|---|---|---|
| Session.InterceptRequest | src/api.js:8-16 | with a non-empty stored token the request gets `Authorization: Bearer <token>` and nothing else changes; without one the request passes through untouched |
| Session.InterceptResponse | src/api.js:23-36 | every outcome is passed on unchanged, and storage changes exactly as `AfterResponse` says |
| Session.UnauthorizedClearsSession | src/api.js:29-33 | after a 401 neither the token nor the user remains stored, and every other key keeps its value |
| Session.OtherOutcomesKeepStorage | src/api.js:23-35 | a success or any non-401 failure leaves storage exactly as it was |
| Session.SignedOutRequestsCarryNoToken | src/api.js:9-33 | after a 401 has cleared the session, the next request goes out without an Authorization header |
| Theme.InitialTheme | src/context/ThemeContext.js:7 | the provider starts on the stored theme when one is stored and non-empty, otherwise on 'light' |
| Theme.ThemeProvider.constructor | src/context/ThemeContext.js:7 | the provider starts on `InitialTheme` of what storage holds |
| Theme.ThemeProvider.ToggleTheme | src/context/ThemeContext.js:10-14 | the theme flips, and exactly the new theme is written to storage under 'theme' |
| Theme.ToggleLandsOnKnownTheme | src/context/ThemeContext.js:11-18 | a toggle always lands on 'light' or 'dark', and the dark class is set exactly when the toggle started from 'light' |
| Theme.ToggleTwice | src/context/ThemeContext.js:11 | toggling twice returns to 'light' or 'dark'; an unknown stored theme goes to 'light' and then to 'dark' |
| Landing.Animate | src/components/LandingPage.js:25-38 | the interval shows 60 frames, frame k being the floored fraction (k+1)/60 of every target, and the last frame is the targets themselves |
| Landing.InitialIsStepZero | src/components/LandingPage.js:7-11 | the counters start at step 0 of the animation |
| Landing.CountersNeverDecrease | src/components/LandingPage.js:28-33 | no counter goes down from one tick to the next |
| Landing.CountersBounded | src/components/LandingPage.js:28-37 | up to the last tick every counter lies between 0 and its target |
| ChatThread.ComposeReply | src/components/VolunteerChat.js:94-102 | no reply is composed when the draft is blank or no conversation is selected; otherwise the reply goes to the selected sender and carries the trimmed draft |
| ChatThread.ReplyNeverBlank | src/components/EventManagerChat.js:79-86 | a composed reply is never blank and is already trimmed |
| ChatThread.SeparatorRule | src/components/VolunteerChat.js:206-217 | a date separator precedes message i exactly when i is the first message or its day differs from the previous message's day |
| ChatThread.OneSeparatorPerDay | src/components/EventManagerChat.js:199-213 | in a thread whose days ascend, each day gets exactly one separator, placed at or before every message of that day |
| ChatThread.TwoDaysTwoSeparators | src/components/EventManagerChat.js:199-213 | an illustration of `SeparatorRule` on one input: two messages on one day followed by one on the next day show separators at places 0 and 2 only |
| ChatThread.RenderMedia | src/components/VolunteerChat.js:113-161 | a photo renders as an image, a video as a video and anything else as nothing; the source is the API base URL followed by the media path |
| VolunteerChat.VolunteerChatPage.HandleNewMessage | src/components/VolunteerChat.js:39-48 | the page moves to `Receive` of its old state and the pushed message |
| VolunteerChat.ReceiveFromSelectedAppends | src/components/VolunteerChat.js:40-41 | a message from the open conversation is appended to the thread, and the unread counts stay as they were |
| VolunteerChat.ReceiveFromOtherCounts | src/components/VolunteerChat.js:42-47 | a message from anyone else leaves the thread alone, raises that sender's unread count by one and no other sender's |
| VolunteerChat.ReceiveAllSplits | src/components/VolunteerChat.js:39-48 | after any stream of pushes, the thread has gained exactly the open conversation's messages in arrival order, and every other sender's count has grown by the number of messages it sent |
| VolunteerChat.ReceiveAllThread | src/components/VolunteerChat.js:39-41 | after any stream of pushes the open conversation stays the same and the thread has gained exactly its messages, in arrival order |
| VolunteerChat.ReceiveAllCounts | src/components/VolunteerChat.js:42-47 | after any stream of pushes, a sender whose conversation is not open has its unread count raised by the number of messages it sent |
| VolunteerChat.SelectedStaysRead | src/components/VolunteerChat.js:39-48 | while a read conversation stays open, no push gives it an unread count or a badge |
| VolunteerChat.VolunteerChatPage.constructor | src/components/VolunteerChat.js:25-31 | the page starts with no senders, no conversation open, an empty thread and draft, no unread counts and no error |
| VolunteerChat.VolunteerChatPage.SelectSender | src/components/VolunteerChat.js:180 | clicking a sender opens that conversation and changes nothing else |
| VolunteerChat.VolunteerChatPage.EditDraft | src/components/VolunteerChat.js:244 | typing replaces the draft and changes nothing else |
| VolunteerChat.VolunteerChatPage.LoadSenders | src/components/VolunteerChat.js:58-67 | the page moves to `SendersLoaded`: the sidebar list on success, the conversations error on failure |
| VolunteerChat.VolunteerChatPage.LoadMessages | src/components/VolunteerChat.js:71-92 | the page moves to `HistoryLoaded` of its old state and the outcome |
| VolunteerChat.HistoryLoadOutcomes | src/components/VolunteerChat.js:76-88 | a loaded history replaces the thread and clears that conversation's unread count and badge; a failure keeps the thread and shows the load error; loading ends either way |
| VolunteerChat.VolunteerChatPage.HandleSendMessage | src/components/VolunteerChat.js:94-111 | the request is `ComposeReply` of the draft and selection, and the page moves to `Sent` |
| VolunteerChat.SendGuardIsNoOp | src/components/VolunteerChat.js:95 | with a blank draft or no conversation open, nothing is sent and nothing changes |
| VolunteerChat.SuccessfulSend | src/components/VolunteerChat.js:99-104 | a successful send posts the trimmed draft to the selected sender, appends the server's message and empties the draft |
| VolunteerChat.NoSecondSend | src/components/VolunteerChat.js:95-104 | right after a successful send, a second send posts nothing and changes nothing |
| VolunteerChat.FailedSendKeepsDraft | src/components/VolunteerChat.js:105-107 | a failed send keeps the draft and the thread and shows the send error |
| EventManagerChat.EventManagerChatPage.ReceiveMessage | src/components/EventManagerChat.js:30-34 | the page moves to `Receive` of its old state and the pushed message |
| EventManagerChat.ReceiveAppendsOrDrops | src/components/EventManagerChat.js:31-33 | a message from the open conversation is appended; any other message changes nothing |
| EventManagerChat.ReceiveAllKeepsOnlySelected | src/components/EventManagerChat.js:30-34 | after any stream of pushes, the only change is that the open conversation's messages are appended in arrival order |
| EventManagerChat.EventManagerChatPage.GetSenders | src/components/EventManagerChat.js:44-52 | the page moves to `SendersLoaded`: the server's list on success, the conversations error on failure |
| EventManagerChat.EventManagerChatPage.LoadMessages | src/components/EventManagerChat.js:58-75 | the page moves to `HistoryLoaded` of its old state and the outcome |
| EventManagerChat.HistoryLoadOutcomes | src/components/EventManagerChat.js:61-70 | a loaded history replaces the thread and clears the error; a failure keeps the thread and shows the load error; loading ends either way |
| EventManagerChat.EventManagerChatPage.HandleSendMessage | src/components/EventManagerChat.js:78-97 | the request is `ComposeReply` of the draft and selection, and the page moves to `Sent` |
| EventManagerChat.SendGuardIsNoOp | src/components/EventManagerChat.js:79 | with a blank draft or no conversation open, nothing is sent and nothing changes |
| EventManagerChat.SendOutcomes | src/components/EventManagerChat.js:83-93 | success appends the server's message and empties the draft; failure keeps draft and thread and shows the send error |
| EventManagerChat.SendersOnlyFromServer | src/components/EventManagerChat.js:43-55 | pushes, history loads and sends never change the sidebar; only the senders fetch does |
| EventManagerChat.ShowsBadge | src/components/EventManagerChat.js:173-177 | a sender's row shows a badge exactly when the server's unread count is positive; its promise is stated by `BadgesStayUntilRefetch` |
| EventManagerChat.BadgesStayUntilRefetch | src/components/EventManagerChat.js:30-34 | no stream of pushes, however many and from whom, changes the sender list, so every badge stays exactly as the fetched count says |
| EventManagerChat.EventManagerChatPage.constructor | src/components/EventManagerChat.js:15-20 | the page starts with no senders, no conversation open, an empty thread and draft, not loading and no error |
| EventManagerChat.EventManagerChatPage.SelectSender | src/components/EventManagerChat.js:169 | clicking a sender opens that conversation and changes nothing else |
| EventManagerChat.EventManagerChatPage.EditDraft | src/components/EventManagerChat.js:236 | typing replaces the draft and changes nothing else |
| SendMessages.SendMessagesPage.LoadEvents | src/components/SendMessages.js:57-70 | an array answer becomes the event list; anything else shows the events error; the form stays consistent |
| SendMessages.SendMessagesPage.SelectEvent | src/components/SendMessages.js:75-81 | choosing no event clears the volunteers, the selection and select-all |
| SendMessages.SendMessagesPage.LoadVolunteers | src/components/SendMessages.js:83-99 | a fresh volunteer list starts with nothing selected; a non-array answer or a failure shows the volunteers error |
| SendMessages.SendMessagesPage.HandleSelectAll | src/components/SendMessages.js:103-110 | select-all selects every listed volunteer in list order, or none when it was on, and flips the flag |
| SendMessages.SendMessagesPage.HandleVolunteerSelection | src/components/SendMessages.js:113-121 | the id is toggled, and select-all is on exactly when the selection is as long as the list |
| SendMessages.ToggleFlipsOnlyThatId | src/components/SendMessages.js:115-118 | the toggled id is selected afterwards exactly when it was not before, and every other id keeps its state |
| SendMessages.ToggleTwice | src/components/SendMessages.js:115-118 | toggling twice restores the selected set, and restores the list itself when the id started unselected |
| SendMessages.ToggleKeepsConsistent | src/components/SendMessages.js:113-121 | toggling keeps the selection duplicate-free and within the list, and select-all true exactly when all are selected |
| SendMessages.SelectAllKeepsConsistent | src/components/SendMessages.js:103-110 | select-all keeps the same invariant whichever way it flips |
| SendMessages.EmptySelectionIsNotAll | src/components/SendMessages.js:119 | with volunteers listed, the empty selection never counts as everyone |
| SendMessages.SendMessagesPage.Post | src/components/SendMessages.js:137-189 | once the checks pass, the post carries `PayloadOf` the form, and the form moves to `Answered`: reset on an answer with a body, the status-dependent error otherwise |
| SendMessages.SendMessagesPage.HandleSendMessage | src/components/SendMessages.js:125-191 | a post is made exactly when validation passes, and it carries `PayloadOf` the form and the stored user id; the form moves to `Sent` and stays consistent; storage changes only through the 401 interceptor on a posted request |
| SendMessages.SendMessagesPage.CheckboxClickAsWritten | src/components/SendMessages.js:236-245 | a click on a check box runs the toggle twice, so the set of selected volunteers is unchanged; only the selection and select-all may change |
| SendMessages.SendMessagesPage.CheckboxClick | src/components/SendMessages.js:113-121 | one toggle: the selection becomes `Toggled` of the old one and select-all follows it, with every other field kept; the clicked volunteer becomes selected exactly when it was not, and every other volunteer keeps its state |
| SendMessages.SentKeepsConsistent | src/components/SendMessages.js:125-191 | whatever the token and the answer, a send keeps the selection duplicate-free, within the list, and select-all true exactly when all are selected |
| SendMessages.RejectedSendOnlySetsError | src/components/SendMessages.js:126-135 | without a token the login error is shown; with a token but no event, no recipient or a blank message the incomplete-form error is shown; nothing else changes |
| SendMessages.PayloadIsWellFormed | src/components/SendMessages.js:142-152 | a post carries the chosen event, a non-empty recipient list and a trimmed, non-blank message |
| SendMessages.SuccessResetsForm | src/components/SendMessages.js:159-169 | success empties the message and the selection and turns select-all off; the chosen event and the volunteer list stay |
| SendMessages.FailureKeepsForm | src/components/SendMessages.js:174-189 | failure keeps the form as typed and shows a non-empty error: the 401 text, the 500 text, or the server's message |
| SendMessages.SendErrorText | src/components/SendMessages.js:179-189 | every failed send shows a non-empty message |
| SendMessages.ButtonMatchesValidation | src/components/SendMessages.js:132-135 | a form the send button lets through passes validation when logged in with an event chosen, and a blank message or an empty selection always fails it |
| SendMessages.SendDisabled | src/components/SendMessages.js:280 | the send button is disabled while loading, with a blank message, or with nobody selected; its promise is stated by `ButtonMatchesValidation` |
| SendMessages.SendMessagesPage.constructor | src/components/SendMessages.js:14-21 | the form starts with no events, no event chosen, no volunteers, nothing selected, an empty message, select-all off and no error, and is consistent |
| SendMessages.SendMessagesPage.EditMessage | src/components/SendMessages.js:269 | typing replaces the message, changes nothing else and keeps the form consistent |
| Training.ShownIsTheEventsVideos | src/components/Training.js:30-35 | the empty filter shows every video; any other filter shows, in list order, exactly the videos of that event |
| Training.FindIndex | src/components/Training.js:136-153 | the index found is the first video with that id, and no index is found only when no video has it |
| Training.SwapOrders | src/components/Training.js:157-158 | the two places exchange their order fields and everything else is kept |
| Training.ReorderPermutes | src/components/Training.js:152-163 | a successful reorder yields a list sorted by order that is a permutation of the list with the two orders swapped |
| Training.ReorderKeepsVideos | src/components/Training.js:152-164 | after a reorder the page lists exactly the same videos by id, none lost and none duplicated |
| Training.SwapKeepsIds | src/components/Training.js:157-158 | the swap keeps the multiset of ids |
| Training.TrainingPage.HandleReorder | src/components/Training.js:134-168 | no request and no change without a listed video and an order within bounds; otherwise the new order is posted, and the list becomes the reordered one or the reorder error is shown; no other state changes |
| Training.TrainingPage.LoadEvents | src/components/Training.js:38-46 | the event list on success, the events error on failure; nothing else changes |
| Training.TrainingPage.LoadTrainingVideos | src/components/Training.js:49-61 | the video list on success, the videos error on failure; loading ends; nothing else changes |
| Training.TrainingPage.SetFilter | src/components/Training.js:30-35 | only the filter changes, and the shown list is `Shown` of the videos and the new filter |
| Training.UploadTitleIsTrimmed | src/components/Training.js:78-96 | an upload that passes the checks has an event and a file, and posts a trimmed, non-blank title |
| Training.TrainingPage.HandleUpload | src/components/Training.js:72-116 | a failed check shows its error, posts nothing and keeps the form; a posted upload carries the event, the trimmed title and the file; success closes and clears the form and asks for the video list to be reloaded; failure shows the server's message or the default and asks for no reload; the handler itself leaves the videos, events and filter as they were |
| Training.TrainingPage.HandleDelete | src/components/Training.js:119-131 | the delete is requested only after confirmation; a successful delete asks for the video list to be reloaded, and only a failed one shows the delete error; the handler changes nothing else |
| Training.VideoUrlIdempotent | src/components/Training.js:172-187 | resolving an already resolved video URL against an absolute base changes nothing |
| Training.DefaultBaseIsAbsolute | src/components/Training.js:185 | the default base URL begins with 'http', so a resolved URL is resolved once only |
| Training.VideoUrl | src/components/Training.js:171-186 | a falsy URL gives ''; an absolute one is kept; any other is the API base, or the default base, followed by the URL with a leading 'undefined' removed; `VideoUrlIdempotent` states that resolving is done once and for all |
| Training.TrainingPage.constructor | src/components/Training.js:8-19 | the page starts with no videos or events, no filter, an empty upload form, the dialog closed, not loading and no error |
| Training.TrainingPage.OpenUpload | src/components/Training.js:243 | the upload button opens the dialog and changes nothing else |
| Training.TrainingPage.CancelUpload | src/components/Training.js:334 | Cancel closes the dialog and keeps what was typed |
| Training.TrainingPage.EditUpload | src/components/Training.js:64-69 | the event selector and the title take the typed values, and the file is replaced only when one is picked; nothing else changes |
| Events.Search | src/components/EventManagerEvents.js:47-51 | the result keeps, in order, exactly the events whose title, description or location contains the term, ignoring case, each matching event as often as it was listed |
| Events.EmptySearchKeepsAll | src/components/VolunteerEvents.js:83-90 | an empty term keeps every event |
| Events.SearchIdempotent | src/components/EventManagerEvents.js:47-51 | searching the result again with the same term changes nothing |
| Events.SearchIgnoresTermCase | src/components/VolunteerEvents.js:84 | a term and its lower-case form find the same events |
| VolunteerEvents.VolunteerEventsPage.LoadEvents | src/components/VolunteerEvents.js:21-69 | the query asks for the current page, 20 per page and the date filter when set; the list, page count and error become `Loaded` of the outcome |
| VolunteerEvents.PageCount | src/components/VolunteerEvents.js:57 | the page count is the fewest pages of 20 that hold the total |
| VolunteerEvents.PageCountCovers | src/components/VolunteerEvents.js:57 | a positive total gives at least one page, and exactly one page when the total is at most 20 |
| VolunteerEvents.LoadOutcomes | src/components/VolunteerEvents.js:34-67 | only upcoming events are kept; an empty answer gives one page; a failure empties the list, keeps the page count and shows a non-empty error |
| VolunteerEvents.VisibleSpec | src/components/VolunteerEvents.js:72-94 | the shown events are sorted by date, taken from the loaded ones without duplication, and are exactly those matching both the status filter and the search, each match as often as it was loaded |
| VolunteerEvents.ShowsAllUnfiltered | src/components/VolunteerEvents.js:72-94 | with status 'all' and no search every loaded event is shown, sorted by date |
| VolunteerEvents.Visible | src/components/VolunteerEvents.js:72-94 | the shown list: status filter, then search for a non-empty term, then sort by date; its promise is stated by `VisibleSpec` |
| VolunteerEvents.VolunteerEventsPage.constructor | src/components/VolunteerEvents.js:8-18 | the page starts on page 1 of 1, loading, with no events, no search, no date filter and status 'all' |
| Seqs.FilterCount | src/components/Profile.js:281 | `filter` keeps every copy of an accepted element and no copy of a rejected one |
| Seqs.SortByStable | src/components/VolunteerEvents.js:92-93 | the sort is stable: the elements of any one key leave the sort in the order they entered it |
| Seqs.SortByKeepsTies | src/components/Training.js:160-161 | videos with equal `order || 0`, and events with equal dates, keep their relative order through the sort |
| VolunteerEvents.VolunteerEventsPage.HandleApply | src/components/VolunteerEvents.js:107-164 | the apply request names the event, and the list becomes the settled outcome of the optimistic update |
| VolunteerEvents.BeginApplyMarksTarget | src/components/VolunteerEvents.js:110-116 | the optimistic update marks the event applied and applying and leaves every other event as it was |
| VolunteerEvents.ApplySettles | src/components/VolunteerEvents.js:120-162 | once the answer is in, the event is no longer applying, is applied exactly when the answer says it should stay applied, and no other event changes |
| VolunteerEvents.ApplyOutcomeCases | src/components/VolunteerEvents.js:120-158 | a 2xx answer, a 500, or the already-applied error with any status and message keep the application; a failure with no response undoes it |
| VolunteerEvents.VolunteerEventsPage.HandleFilterChange | src/components/VolunteerEvents.js:167-171 | the named filter takes the value, the other is kept, and paging returns to page 1 |
| VolunteerEvents.VolunteerEventsPage.HandleSearch | src/components/VolunteerEvents.js:174-177 | the search term is set and paging returns to page 1 |
| VolunteerEvents.PagingClamps | src/components/VolunteerEvents.js:264-271 | Previous never goes below 1 and Next never passes the last page |
| VolunteerEvents.PagingInverse | src/components/VolunteerEvents.js:264-271 | away from the edges, Previous undoes Next and Next undoes Previous |
| VolunteerEvents.VolunteerEventsPage.PreviousPage | src/components/VolunteerEvents.js:264 | the page becomes `Previous` of the old page, and nothing else may change |
| VolunteerEvents.VolunteerEventsPage.NextPage | src/components/VolunteerEvents.js:271 | the page becomes `Next` of the old page and the page count, and nothing else may change |
| EventManagerEvents.EventManagerEventsPage.LoadEvents | src/components/EventManagerEvents.js:16-31 | the answer's events, or none, on success; the server's message or the default error on failure; loading ends |
| EventManagerEvents.EventManagerEventsPage.HandleDeleteEvent | src/components/EventManagerEvents.js:34-44 | the delete is requested only after confirmation, and only a successful delete removes the event from the list |
| EventManagerEvents.WithoutRemovesOnlyThatId | src/components/EventManagerEvents.js:39 | removal keeps, in order and with their multiplicities, exactly the events with another id |
| EventManagerEvents.WithoutIdempotent | src/components/EventManagerEvents.js:39 | removing twice is removing once, and removing an absent id changes nothing |
| EventManagerEvents.StatusLabel | src/components/EventManagerEvents.js:100 | the status label is never empty |
| EventManagerEvents.StatusLabelKeepsStatus | src/components/EventManagerEvents.js:100 | a non-empty status keeps its length and every letter but the first, equals it ignoring case, and does not start with a lower-case letter |
| EventManagerEvents.StatusLabelIdempotent | src/components/EventManagerEvents.js:99-100 | labelling a label changes nothing, and a missing or empty status reads 'Pending' |
| EventManagerEvents.EventManagerEventsPage.constructor | src/components/EventManagerEvents.js:9-12 | the page starts loading, with no events, no error and no search |
| EventManagerEvents.EventManagerEventsPage.SetSearchTerm | src/components/EventManagerEvents.js:67 | typing sets the search term and nothing else may change |
| Profile.FullImageUrlResolves | src/components/Profile.js:60-71 | an absolute image URL is kept; with a base starting with 'http' resolving twice is resolving once |
| Profile.NoImageNoUrl | src/components/Profile.js:61 | a missing or empty image gives no URL |
| Profile.FullImageUrl | src/components/Profile.js:60-71 | there is an address exactly when the stored path is truthy, and it ends with that path; `FullImageUrlResolves` and `NoImageNoUrl` state the rest |
| Profile.RouteChoice | src/components/Profile.js:82-97 | a username fetches `/users/volunteer/<username>`, otherwise an id fetches `/users/profile/<id>`, otherwise `/users/profile`, and only the last is one's own profile |
| Profile.ProfilePage.FetchProfile | src/components/Profile.js:73-151 | the path follows the route; a profile in the answer is shown with its image preview; an empty answer shows the no-data error and a failure shows `FetchErrorText`, keeping the profile; a 401 clears the session; no other state changes |
| Profile.FetchErrorsArePrefixed | src/components/Profile.js:113-137 | every fetch error starts with 'Error fetching profile: ', and a 404 names the missing profile or volunteer |
| Profile.ProfilePage.HandleFileChange | src/components/Profile.js:168-191 | a file is selected and previewed, and the error cleared, only when it passes the size and type checks; otherwise the rejection is returned and no state changes |
| Profile.FileCheckAccepts | src/components/Profile.js:171-179 | a file passes exactly when it is at most 5 MB and its type starts with 'image/'; the size check comes first |
| Profile.ExactlyFiveMegabytesPasses | src/components/Profile.js:171 | an illustration of `FileCheckAccepts` on one input: a PNG of exactly 5 MiB passes, although the message asks for less than 5MB |
| Profile.ProfilePage.HandleSaveChanges | src/components/Profile.js:219-270 | a failed upload stops the save; otherwise the update carries the profile with the defaults filled in and the new image; a returned user replaces the profile and its preview and closes editing; nothing else changes, and the error stays cleared |
| Profile.ProfilePage.constructor | src/components/Profile.js:10-57 | the page keeps the route's id and username and starts on its own, blank profile, with no file, no preview, not editing, no error and empty inputs |
| Profile.ProfilePage.ToggleEditing | src/components/Profile.js:362-365 | the Edit/Save button flips editing and changes nothing else |
| Profile.ProfilePage.CancelEditing | src/components/Profile.js:825-831 | Cancel leaves editing, drops the picked file, shows the stored picture again and clears the error; nothing else changes |
| Profile.UpdateDataDefaults | src/components/Profile.js:238-252 | a missing bio is sent as ''; missing skills, experience, preferred event types, achievements and certifications are sent as empty lists; availability defaults to weekdays and weekends; an update made from its own profile reproduces itself |
| Profile.ProfilePage.HandleAddSkill | src/components/Profile.js:272-278 | a non-blank skill not yet listed is appended trimmed and the input is cleared; otherwise nothing changes |
| Profile.ProfilePage.EditNewSkill | src/components/Profile.js:701 | typing replaces the skill input and changes nothing else |
| Profile.AddSkillKeepsDistinct | src/components/Profile.js:273-274 | adding keeps the skills distinct, and the same input cannot be added again |
| Profile.ProfilePage.HandleRemoveSkill | src/components/Profile.js:280-283 | the skills become `WithoutSkill` of the old ones |
| Profile.WithoutSkill | src/components/Profile.js:280-283 | every copy of the removed skill is gone, every other skill stays with as many copies as before, and the result is an order-preserving sub-list of the skills |
| Profile.RemoveUndoesAdd | src/components/Profile.js:272-283 | removing a skill just added restores the former list |
| Profile.AddExperience | src/components/Profile.js:285-307 | an entry with a title and an organisation is appended after the existing ones; otherwise the required-fields error is given |
| Profile.ProfilePage.HandleAddExperience | src/components/Profile.js:285-307 | an accepted entry is appended and the draft is cleared; a rejected one sets the error and keeps the draft |
| Profile.AddExperienceKeepsEntries | src/components/Profile.js:288 | adding experience keeps every existing entry and adds the draft once |
| Profile.ProfilePage.EditNewExperience | src/components/Profile.js:740-773 | typing replaces the experience draft and changes nothing else |
| ManageApplications.ManageApplicationsPage.GetApplications | src/components/ManageApplications.js:17-48 | without an event id nothing is requested and the missing-id error is shown; otherwise the applicants replace the list, or the server's error or the default is shown; loading ends |
| ManageApplications.LoadOutcomes | src/components/ManageApplications.js:31-40 | the list loads exactly when the answer carries applicants; an answer without them shows 'Failed to load applications' |
| ManageApplications.ManageApplicationsPage.HandleStatusUpdate | src/components/ManageApplications.js:51-73 | the status is sent lower-cased, and only a 200 answer changes that application's status in the list |
| ManageApplications.WithStatusChangesOnlyTarget | src/components/ManageApplications.js:60-64 | an update keeps the length, the order and the ids, rewrites the status of the matching application, and keeps every other application |
| ManageApplications.WithStatusIdempotent | src/components/ManageApplications.js:60-64 | applying an update twice is applying it once, and an unknown id changes nothing |
| ManageApplications.DecisionsSentLowerCase | src/components/ManageApplications.js:54-56 | accepting sends 'accepted' and rejecting sends 'rejected' |
| ManageApplications.DecidedOffersNothing | src/components/ManageApplications.js:142-157 | a card offers actions exactly while its application is 'Pending', and none once a decision is applied |
| ManageApplications.ManageApplicationsPage.constructor | src/components/ManageApplications.js:8-14 | the page keeps the route's event id and starts loading, with no applications and no error |
| EventCompletion.EventCompletionPage.HandleRateVolunteer | src/components/EventCompletionPage.js:69-74 | the dialog opens on that volunteer with its rating or 0 and its feedback or '', and submission is disabled exactly when the volunteer was unrated |
| EventCompletion.EventCompletionPage.ChooseStar | src/components/EventCompletionPage.js:14-18 | clicking a star sets the rating to it, enables submission, and the input fills exactly the stars up to it |
| EventCompletion.FilledStarsClamp | src/components/EventCompletionPage.js:14-17 | the input fills as many stars as the rating, clamped between none and all |
| EventCompletion.StarRowsAgree | src/components/EventCompletionPage.js:162-166 | the card and the dialog fill the same stars for a rating, and a row of five fills the rating's number of stars, up to five |
| EventCompletion.UnratedOpensEmpty | src/components/EventCompletionPage.js:71-72 | an unrated volunteer opens the dialog with no star and no feedback, so submission stays disabled |
| EventCompletion.EventCompletionPage.HandleRatingSubmit | src/components/EventCompletionPage.js:77-123 | nothing is posted without a selected volunteer or a stored token; success rewrites that volunteer and closes the dialog; failure changes no page state; storage changes only through the 401 interceptor on a posted request |
| EventCompletion.RatedChangesOnlyTarget | src/components/EventCompletionPage.js:100-106 | a submission rewrites exactly the rated volunteer's rating and feedback and keeps every other volunteer |
| EventCompletion.ReopenShowsSubmitted | src/components/EventCompletionPage.js:69-74 | reopening the dialog for a volunteer just rated shows the submitted rating and feedback |
| EventCompletion.EventCompletionPage.CloseDialog | src/components/EventCompletionPage.js:194-197 | closing hides the dialog and clears the selection without touching the volunteers |
| EventCompletion.EventCompletionPage.constructor | src/components/EventCompletionPage.js:30-41 | the page keeps the route's event id and the accepted volunteers, with no selection, the dialog closed, no star and no feedback |
| EventCompletion.EventCompletionPage.SubmitDisabled | src/components/EventCompletionPage.js:221 | submission is disabled while no star is chosen; `HandleRateVolunteer` states that it is disabled exactly when the volunteer was unrated, and `ChooseStar` that a star enables it |
| EventCompletion.EventCompletionPage.EditFeedback | src/components/EventCompletionPage.js:212 | typing replaces the feedback and nothing else may change |
| UserGuide.UserGuidePage.constructor | src/components/UserGuide.js:10-12 | the guide opens on the user's role or on the volunteer's guide, with no card open and no search |
| UserGuide.UserGuidePage.ToggleSection | src/components/UserGuide.js:14-19 | the cards become `Toggle` of the old cards and that card's id |
| UserGuide.ToggleFlipsOnlyThatCard | src/components/UserGuide.js:14-19 | toggling flips exactly that card, and toggling twice restores it |
| UserGuide.RoleChoosesGuide | src/components/UserGuide.js:12 | without a role the volunteer's guide is shown, and the 'event_manager' role shows the manager's |
| UserGuide.FilteredIsMatchingSublist | src/components/UserGuide.js:319-330 | the shown cards keep their order and are exactly the role's cards whose title, a subtitle or a detail contains the term, ignoring case, each matching card as often as the guide lists it |
| UserGuide.EmptySearchKeepsGuide | src/components/UserGuide.js:321-329 | an empty search shows every card of the guide |
| UserGuide.DetailFindsCard | src/components/UserGuide.js:325-327 | searching for any one of a card's details finds that card |
| UserGuide.UserGuidePage.SelectRole | src/components/UserGuide.js:339-345 | the role buttons set the role shown and nothing else may change |
| UserGuide.UserGuidePage.SetSearchTerm | src/components/UserGuide.js:356 | typing sets the search term and nothing else may change |
| CreateEvent.CreateEventPage.HandleChange | src/components/CreateEvent.js:18-24 | the form becomes `WithField` of the old form, the input's name and its value |
| CreateEvent.EditChangesOnlyThatField | src/components/CreateEvent.js:20-23 | editing sets the named field and leaves every other field as it was |
| CreateEvent.EditRoundTrips | src/components/CreateEvent.js:20-23 | writing back a field's own value changes nothing, and the last edit of a field wins |
| CreateEvent.CreateEventPage.HandleSubmit | src/components/CreateEvent.js:27-56 | a missing required field stops the submit with its error; otherwise the form is posted, success empties it, and failure keeps it and shows the server's error or the default |
| CreateEvent.RequirementsAreOptional | src/components/CreateEvent.js:32-36 | the requirements field never decides whether a submission goes out, and emptying any other field stops it |
| CreateEvent.CreateEventPage.constructor | src/components/CreateEvent.js:8-15 | the form starts blank, with no error |

## Left out

- Socket plumbing is not modelled: joining rooms, subscribing, unsubscribing and `socket.emit` after a broadcast. A pushed message is a method call.
- Asynchronous interleaving is not modelled. Each handler runs to completion with its server outcome given as a parameter, so a stale response arriving after a newer selection cannot happen in the model.
- Loading flags are modelled only at completion, where they are false. The interim `true` is not a state of the model.
- Date handling is not modelled. The browser's locale day is a function parameter `dayOf` in the chat separators, and the current time is a parameter `now` in the event list. Dates are integer keys, and the time and date formatting of messages is left out.
- Case mapping covers ASCII letters only. `toLowerCase` and `toUpperCase` on other characters are treated as the identity.
- Training.TrainingPage.HandleUpload, Training.TrainingPage.HandleDelete: the follow-up `loadTrainingVideos` after a success is not part of the handler. The handler returns `reload`, and the reload is a separate `LoadTrainingVideos` call with its own outcome.
- Training.TrainingPage.HandleReorder: the swap is made on a copy whose elements are values. Aliasing between the copied array and the page state, as with JavaScript's shared video objects, is not modelled.
- Training.VideoUrl, Profile.FullImageUrl: `process.env.REACT_APP_API_URL` is a parameter `env`.
- Profile.ProfilePage.FetchProfile: axios's own `error.message` is a parameter `axiosMessage`, and `navigate('/login')` is left out.
- Profile.ProfilePage.HandleSaveChanges: the image upload is a separate request whose outcome is a parameter. Its failure toast is left out.
- Profile.ProfilePage.HandleFileChange: the FileReader's data URL is a parameter `dataUrl`, set as the preview at once rather than when the reader finishes.
- Profile: `handleChange` on the free-text fields, the rating stars of the profile card (fractional ratings) and the modals are not modelled.
- EventCompletion.EventCompletionPage.constructor: loading the accepted volunteers is left out. The list is a constructor parameter.
- EventCompletion.EventCompletionPage.ChooseStar requires a star from 1 to 5, the only values the rating input offers.
- SendMessages.SendMessagesPage.HandleVolunteerSelection requires the id to be a listed volunteer's, the only ids the check boxes offer.
- VolunteerEvents: the effect that reloads the list when the page or the date filter changes is not modelled. `LoadEvents` is called explicitly.
- UserGuide: the guide's static text is a constructor parameter, and its icons are left out.
- The 401 session wipe of the shared response interceptor is composed only into the handlers that read storage: Profile.ProfilePage.FetchProfile, SendMessages.SendMessagesPage.HandleSendMessage and EventCompletion.EventCompletionPage.HandleRatingSubmit. The other handlers receive the outcome as the interceptor passes it on, and their contracts do not mention storage. Session.InterceptResponse states the wipe for every call.
- Alerts, toasts, `window.confirm`, navigation and DOM effects are left out. A confirmation is a boolean parameter.
- `src/components/Reports.js` is not part of this model. Routing, authentication views, sidebars, the dashboard and `ThemeToggle.js` are presentational and are left out too.

## Findings

| source | as written | input that shows it | evidently intended | confidence | as-written member | corrected member |
|---|---|---|---|---|---|---|
| src/components/SendMessages.js:236-245 | the row's `onClick` and its check box's `onChange` both call `handleVolunteerSelection`, and a click on the box bubbles to the row | any click on the check box of an unselected volunteer: it is toggled on, then off again, so it stays unselected | a click on the box toggles the volunteer once | not executed; medium (relies on React delivering the box's change before the row's bubbled click) | SendMessages.SendMessagesPage.CheckboxClickAsWritten, with SendMessages.ToggleTwice | SendMessages.SendMessagesPage.CheckboxClick |
