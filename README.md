# EventMan front end, modelled in Dafny

EventMan is a web client for virtual events. Organizers create events. Attendees register for them and join a live page with a video room. The live page also has chat and Q&A. Admins manage users.

This project models the client's decision logic and state handling, with proofs about both:

- **Socket service.** The real-time connection holder and its per-event callback lists (`SocketModel`).
- **Auth slice.** The signed-in user and token in the store, mirrored into browser storage (`AuthSlice`).
- **Initials.** The avatar-initials helper (`Initials`), written on top of JavaScript's `trim`/`split` (`JsStrings`).
- **Event pages.** The access gate of the live page, and the status flags and action panel of the detail page (`EventAccess`).
- **Video widget.** Its script/instance lifecycle (`JitsiWidget`).
- **Chat and question inputs** (`LiveInputs`), plus the Q&A item, its answer editor and the sorted Q&A list (`Qna`).
- **Admin.** The user row's role and delete handlers (`UserAdmin`).
- **Protected routes** (`RouteGuard`), and the paged lists of the organizer dashboard and the admin page (`Pagination`).
- **Data layer.** The cache tags of its endpoints, and which mutation refetches which query (`CacheTags`, `RegistrationApi`, `EventApi`, `UserApi`).
- **Forms.** The event, registration, login and profile forms: rules, payloads, error placement and effects (`FormRules`, `EventForm`, `AuthForms`, `ProfileForm`).

How the model represents the source:

- **Pure code → functions.** Pure decisions are functions whose contracts state the promised behaviour. They come with lemmas relating them to reference definitions, inverses or invariants.
- **Stateful code → classes.** Code that updates state is a class with `modifies` clauses. Each method's new state is tied to a specification function, or stated field by field.
- **Async handlers → two steps.** The first call issues the request and sets the in-flight flag. The second settles the request with success or failure.
- **Effects as outputs.** Toasts, navigation and requests are recorded as sequences.
- **Times are integers.** They are milliseconds.
- **JavaScript semantics are written out explicitly:**
  - `a || b` fallbacks (`MessageOr`, `TextOr`) and `?? 0` (`GetOr`);
  - truthiness of an empty array;
  - `parseInt` truncation;
  - object keys turning an object into `"[object Object]"`.

## Model

Four predicates of `EventAccess` only name a condition the pages compute and have no row of their own. They are the conditions the contracts below are stated in:
- `IsStaff` is the staff test of src/pages/EventLivePage.jsx:73, used in `LiveGate`;
- `LiveNow` is the live window of src/pages/EventLivePage.jsx:85, used in `LiveGate`;
- `ShowJoinLink` is the link condition of src/pages/EventDetailPage.jsx:192, used in `LiveLinkOrHint`;
- `ShowRegisterHint` is the hint condition of src/pages/EventDetailPage.jsx:201, used in `LiveLinkOrHint`.

| member | source | states |
|---|---|---|
| JsStrings.TrimStart | src/lib/utils.js:12 | the result does not start with white space and is a suffix of the input |
| JsStrings.TrimEnd | src/lib/utils.js:12 | the result does not end with white space and is a prefix of the input |
| JsStrings.TrimEmpty | src/lib/utils.js:12 | trimming gives the empty string exactly for all-white-space input |
| JsStrings.TrimOfPadded | src/lib/utils.js:12 | white-space padding on either side does not change the trimmed text |
| JsStrings.TrimOfTrimmed | src/lib/utils.js:12 | trimming is idempotent |
| JsStrings.TrimSplits | src/lib/utils.js:12 | the input is leading spaces + trimmed text + trailing spaces |
| JsStrings.TrimStartOfSpaces | src/lib/utils.js:12 | leading white space does not change `trimStart` |
| JsStrings.TrimEndOfSpaces | src/lib/utils.js:12 | trailing white space does not change `trimEnd` |
| JsStrings.TrimStartConcat | src/lib/utils.js:12 | `trimStart` of a concatenation: skips an all-space front, else trims the front alone |
| JsStrings.TrimEndConcat | src/lib/utils.js:12 | `trimEnd` of a concatenation: skips an all-space back, else trims the back alone |
| JsStrings.LowerChar | src/components/auth/RegisterForm.jsx:42 | an ASCII capital becomes the letter 32 code points later, a small letter; every other character is kept |
| JsStrings.UpperChar | src/lib/utils.js:19-25 | an ASCII small letter becomes the letter 32 code points earlier, a capital; every other character is kept |
| JsStrings.ToLower | src/components/auth/RegisterForm.jsx:42 | same length; every ASCII capital letter is lowered, other characters are kept |
| JsStrings.MessageOr | src/pages/EventDetailPage.jsx:93 | a present non-empty server message wins; a missing or empty one gives the fallback |
| Initials.SplitWs | src/lib/utils.js:12 | `split(/\s+/)` always gives at least one field |
| Initials.FirstUpper | src/lib/utils.js:19-25 | `charAt(0).toUpperCase()`: empty exactly for an empty word, else one character, already upper case |
| Initials.FromFields | src/lib/utils.js:14-26 | at most two characters, all upper case; empty exactly when there are no fields or the first is empty |
| Initials.GetInitials | src/lib/utils.js:7-27 | a missing, non-string or empty name gives ""; every initial is upper case |
| Initials.Words | src/lib/utils.js:12 | reference definition: the words are non-empty and contain no white space |
| Initials.InitialsOf | src/lib/utils.js:14-26 | reference initials: at most two characters, empty exactly when there are no words |
| Initials.InitialsFromWords | src/lib/utils.js:7-27 | `getInitials` of a string equals the reference initials of its words |
| Initials.SplitIsWords | src/lib/utils.js:12 | on trimmed text the split fields are its words, with an empty first field only before leading space |
| Initials.WordsOfTrim | src/lib/utils.js:12 | trimming keeps the words |
| Initials.FieldsOfWords | src/lib/utils.js:14-26 | the early-return chain on split fields equals the reference initials |
| Initials.NoNameGivesEmpty | src/lib/utils.js:8-10 | a missing, non-string or empty name gives "" |
| Initials.BlankGivesEmpty | src/lib/utils.js:14-16 | a name of only white space gives "" |
| Initials.NonBlankGivesInitials | src/lib/utils.js:12-26 | a name with any non-space character gives non-empty initials |
| Initials.AtMostTwo | src/lib/utils.js:18-26 | never more than two characters under ASCII case mapping |
| Initials.SingleWord | src/lib/utils.js:18-20 | one word gives its first letter upper-cased |
| Initials.FirstAndLast | src/lib/utils.js:23-26 | several words give the first letters of the first and last words, middle ignored |
| Initials.WordsOfLeadingSpace | src/lib/utils.js:12 | leading white space adds no word |
| Initials.WordsOfTrailingSpace | src/lib/utils.js:12 | trailing white space adds no word |
| Initials.WordsOfNoSpace | src/lib/utils.js:18-20 | a non-empty text without white space is one word |
| Initials.WordsSplitAt | src/lib/utils.js:12 | a word followed by white space is the first word |
| Initials.WordsAppendWord | src/lib/utils.js:12 | a word after trailing white space is the last word |
| Initials.PaddingInvariant | src/lib/utils.js:12 | leading and trailing white space do not change the initials |
| Initials.SeparatorInvariant | src/lib/utils.js:12 | any run of white space separates like a single blank |
| Initials.WordsOfPadded | src/lib/utils.js:12 | padding does not change the words |
| Initials.WordsOfSpaceRun | src/lib/utils.js:12 | a run of white space splits like one blank |
| SocketModel.EmptyCallbacks | src/services/socketService.js:7-14 | the six known events, each with an empty list |
| SocketModel.Initial | src/services/socketService.js:5-14 | no socket, a registry of exactly the known events |
| SocketModel.WithoutFilters | src/services/socketService.js:207-209 | the filter removes every copy of the callback, keeps every other entry, and shortens the list by the number of copies |
| SocketModel.WithoutConcat | src/services/socketService.js:207-209 | filtering distributes over concatenation |
| SocketModel.WithoutAbsent | src/services/socketService.js:207-209 | filtering out an absent callback changes nothing |
| SocketModel.Invocations | src/services/socketService.js:217-219 | one call per registered callback, in list order, with the broadcast data |
| SocketModel.Failing | src/services/socketService.js:218-225 | the callbacks whose exception is caught and logged |
| SocketModel.ConnectSpec | src/services/socketService.js:16-44 | no change when connected or without a token; otherwise a new unconnected socket with the token |
| SocketModel.DisconnectSpec | src/services/socketService.js:110-120 | with a socket: socket dropped and every list emptied; without one nothing changes |
| SocketModel.EmitWithAckSpec | src/services/socketService.js:124-141 | connected: one emission with the ack; otherwise a function callback gets the not-connected answer |
| SocketModel.DeliverAckSpec | src/services/socketService.js:127-131 | an ack reaches the emission's callback only when it is a function |
| SocketModel.LeaveSpec | src/services/socketService.js:147-176 | connected: emit without ack; a truthy callback is called locally with success or not-connected |
| SocketModel.OnSpec | src/services/socketService.js:193-202 | a known name and a function append at the end of that list only; anything else changes nothing |
| SocketModel.OnOutcome | src/services/socketService.js:194-195 | `on` throws exactly for an inherited object key with a function |
| SocketModel.OffSpec | src/services/socketService.js:205-212 | removes the callback from that list only |
| SocketModel.LookupOutcome | src/services/socketService.js:206-217 | `off` and triggering throw exactly for an inherited object key |
| SocketModel.TriggerSpec | src/services/socketService.js:215-228 | a known name calls every callback of its list in order; others change nothing |
| SocketModel.OffUndoesOn | src/services/socketService.js:193-212 | `off` after `on` of a fresh callback restores the state |
| SocketModel.OffRemovesEveryCopy | src/services/socketService.js:207-209 | one `off` removes a callback registered twice |
| SocketModel.TriggerAfterOn | src/services/socketService.js:195-219 | a newly registered callback is called last |
| SocketModel.DisconnectSilences | src/services/socketService.js:116-118 | after a disconnect no event calls any callback |
| SocketModel.DisconnectIdempotent | src/services/socketService.js:110-120 | disconnecting twice is disconnecting once |
| SocketModel.ReconnectStartsEmpty | src/services/socketService.js:16-120 | a reconnect after a disconnect has a new socket and empty lists |
| SocketModel.SocketService.constructor | src/services/socketService.js:4-14 | the fields start as the initial snapshot |
| SocketModel.SocketService.Connect | src/services/socketService.js:16-44 | new state is `ConnectSpec` of the old |
| SocketModel.SocketService.SetConnected | src/services/socketService.js:47-56 | the library's connected flag changes, nothing else |
| SocketModel.SocketService.Disconnect | src/services/socketService.js:110-120 | new state is `DisconnectSpec`; the clearing loop keeps the registry |
| SocketModel.SocketService.EmitWithAck | src/services/socketService.js:124-141 | new state is `EmitWithAckSpec` |
| SocketModel.SocketService.DeliverAck | src/services/socketService.js:127-131 | new state is `DeliverAckSpec` |
| SocketModel.SocketService.JoinEventRoom | src/services/socketService.js:143-145 | an `emitWithAck` of `joinEventRoom` with the event id |
| SocketModel.SocketService.SendChatMessage | src/services/socketService.js:161-163 | an `emitWithAck` of `sendChatMessage` with event id and message |
| SocketModel.SocketService.JoinEventQnaRoom | src/services/socketService.js:165-167 | an `emitWithAck` of `joinEventQnaRoom` |
| SocketModel.SocketService.SubmitQuestion | src/services/socketService.js:178-180 | an `emitWithAck` of `submitQuestion` with event id and question |
| SocketModel.SocketService.AnswerQuestion | src/services/socketService.js:182-188 | an `emitWithAck` of `answerQuestion` with event, question and answer |
| SocketModel.SocketService.Leave | src/services/socketService.js:147-176 | new state is `LeaveSpec`; a truthy non-function callback throws |
| SocketModel.SocketService.LeaveEventRoom | src/services/socketService.js:147-159 | `Leave` with `leaveEventRoom` |
| SocketModel.SocketService.LeaveEventQnaRoom | src/services/socketService.js:169-176 | `Leave` with `leaveEventQnaRoom` |
| SocketModel.SocketService.On | src/services/socketService.js:193-202 | new state is `OnSpec`, outcome is `OnOutcome` |
| SocketModel.SocketService.Off | src/services/socketService.js:205-212 | new state is `OffSpec`, outcome is `LookupOutcome` |
| SocketModel.SocketService.Trigger | src/services/socketService.js:215-228 | new state is `TriggerSpec`; the caught errors are those of the throwing callbacks, in order |
| SocketModel.SocketService.Receive | src/services/socketService.js:72-107 | a server event of a known name triggers that list and returns the callbacks that threw, in order; others change nothing |
| AuthSlice.StoredToken | src/slices/authSlice.js:56 | a string token is stored as it is, `null` as the text "null" |
| AuthSlice.UserFromStorage | src/slices/authSlice.js:4-13 | missing or empty text gives null without parsing; any text that parses gives its value, whatever kind, and the storage is kept; the key is removed exactly when a non-empty text fails to parse |
| AuthSlice.UserText | src/slices/authSlice.js:55 | the stored user text is a non-empty JSON object text |
| AuthSlice.TokenFromStorage | src/slices/authSlice.js:15-17 | the stored text exactly when one is stored |
| AuthSlice.InitialState | src/slices/authSlice.js:20-25 | the state starts with the stored user read back and the stored token, and the storage as the user read leaves it |
| AuthSlice.SetCredentialsStep | src/slices/authSlice.js:32-57 | no payload: unchanged; malformed: signed out, `user` and `token` keys removed; valid: state and storage set |
| AuthSlice.LogOutStep | src/slices/authSlice.js:59-65 | signed out, both stored keys removed, every other key kept |
| AuthSlice.SetCredentialsIntended | src/slices/authSlice.js:41-49 | corrected: a malformed payload acts as `logOut` |
| AuthSlice.NullTokenAccepted | src/slices/authSlice.js:41-56 | a user with a `null` token is accepted and "null" is stored |
| AuthSlice.CredentialsSurviveReload | src/slices/authSlice.js:20-56 | after valid credentials, and given that `JSON.parse` reads back what `JSON.stringify` wrote, a reload restores the same user, token and storage |
| AuthSlice.NonUserJsonKept | src/slices/authSlice.js:4-13 | stored JSON that is not a user becomes the state user as parsed and stays stored |
| AuthSlice.NullTextKept | src/slices/authSlice.js:4-13 | the text "null" gives a signed-out state and stays stored |
| AuthSlice.CorruptUserCleared | src/slices/authSlice.js:4-24 | text that fails to parse gives null and removes only the `user` key; the token is still read |
| AuthSlice.NullTokenRevivedOnReload | src/slices/authSlice.js:24-56 | a `null` token comes back after a reload as the string "null" |
| AuthSlice.LogOutIdempotent | src/slices/authSlice.js:59-65 | logging out twice is logging out once |
| AuthSlice.LogOutSurvivesReload | src/slices/authSlice.js:20-65 | after `logOut` a reload starts signed out |
| AuthSlice.MalformedKeepsStaleToken | src/slices/authSlice.js:45-48 | as written: a malformed payload leaves the old token to come back on reload |
| AuthSlice.MalformedIntendedSignsOut | src/slices/authSlice.js:45-48 | corrected: a malformed payload signs out across reloads |
| AuthSlice.AuthStore.constructor | src/slices/authSlice.js:20-29 | the store starts in `InitialState` of the storage |
| AuthSlice.AuthStore.SetCredentials | src/slices/authSlice.js:32-57 | new state is `SetCredentialsStep` of the old |
| AuthSlice.AuthStore.LogOut | src/slices/authSlice.js:59-65 | new state is `LogOutStep` of the old |
| EventAccess.NotLive | src/pages/EventLivePage.jsx:89 | the not-live message is the fixed text around the status, which can be read back from it |
| EventAccess.LiveGate | src/pages/EventLivePage.jsx:49-113 | spinner iff loading; not-found message; login redirect keeps the live path; the not-registered message for every unregistered non-staff user; the not-live message with the status for every admitted user outside the window; the room iff signed in, registered or staff, and live now |
| EventAccess.LiveRoomIsGuarded | src/pages/EventLivePage.jsx:72-113 | entering implies a user, registration or staff, `start <= now < end`, and the video gets room, name and title |
| EventAccess.SpeakerNeedsRegistration | src/pages/EventLivePage.jsx:72-77 | an unregistered speaker who is not the organizer is turned away |
| EventAccess.NoOrganizerNoStaff | src/pages/EventLivePage.jsx:74 | without an organizer nobody is staff |
| EventAccess.NotLiveMessage | src/pages/EventLivePage.jsx:72-90 | a registered user or staff outside the live window gets the message naming the status, and no other status gives that message |
| EventAccess.StatusFlags | src/pages/EventDetailPage.jsx:145-151 | the live, upcoming and past flags from the time window and status, and `canRegister` |
| EventAccess.FlagsExclusive | src/pages/EventDetailPage.jsx:148-151 | at most one flag holds, and a past event cannot be registered for |
| EventAccess.RegisteredFlag | src/pages/EventDetailPage.jsx:75 | registered exactly when the status says `true` |
| EventAccess.Panel | src/pages/EventDetailPage.jsx:246-284 | each panel item present exactly under its render condition |
| EventAccess.PanelChoice | src/pages/EventDetailPage.jsx:246-284 | which items show together in each case, including cancel beside "closed" |
| EventAccess.LiveLinkOrHint | src/pages/EventDetailPage.jsx:192-205 | during a live event exactly one of the join link and the hint shows |
| EventAccess.HandleRegister | src/pages/EventDetailPage.jsx:79-88 | signed out: toast and login with the event path; otherwise the register call |
| EventAccess.HandleUnregister | src/pages/EventDetailPage.jsx:98-102 | signed out: nothing; otherwise the unregister call |
| EventAccess.RegisterToast | src/pages/EventDetailPage.jsx:88-94 | success text, or the server message with the fallback |
| EventAccess.UnregisterToast | src/pages/EventDetailPage.jsx:102-108 | success text, or the server message with the fallback |
| EventAccess.DetailGate | src/pages/EventDetailPage.jsx:134-151 | spinner iff loading; the page iff an event arrived, with its flags; otherwise the server's message, or "Event not found" when it is missing or empty |
| JitsiWidget.DisplayName | src/components/liveEvent/JitsiMeet.jsx:20 | the user's name, else the prop, else "Attendee"; never empty |
| JitsiWidget.MeetingOptions | src/components/liveEvent/JitsiMeet.jsx:79-105 | room, display name, email or "", muted audio and video, no prejoin page |
| JitsiWidget.Subject | src/components/liveEvent/JitsiMeet.jsx:115 | the title, else the room name |
| JitsiWidget.InitPlan | src/components/liveEvent/JitsiMeet.jsx:59-130 | build iff every prerequisite holds and construction succeeds; loading stops only for a loaded script without a room |
| JitsiWidget.JitsiMeet.constructor | src/components/liveEvent/JitsiMeet.jsx:14-18 | loading, script state from the global, no instance |
| JitsiWidget.JitsiMeet.ScriptEffect | src/components/liveEvent/JitsiMeet.jsx:23-33 | a script tag only while not loaded |
| JitsiWidget.JitsiMeet.ScriptLoaded | src/components/liveEvent/JitsiMeet.jsx:35-38 | the script counts as loaded |
| JitsiWidget.JitsiMeet.ScriptFailed | src/components/liveEvent/JitsiMeet.jsx:39-42 | loading stops, script stays unloaded |
| JitsiWidget.JitsiMeet.Cleanup | src/components/liveEvent/JitsiMeet.jsx:138-150 | the stored instance is disposed and cleared; container emptied; loading set again |
| JitsiWidget.JitsiMeet.InitEffect | src/components/liveEvent/JitsiMeet.jsx:57-152 | previous cleanup, then build with the options and subject, or wait, or stop loading |
| JitsiWidget.JitsiMeet.ConferenceJoined | src/components/liveEvent/JitsiMeet.jsx:112-116 | loading stops and the subject is set on the stored instance |
| JitsiWidget.JitsiMeet.AtMostOneLive | src/components/liveEvent/JitsiMeet.jsx:109-144 | at most one built instance is not disposed, and it is the stored one |
| LiveInputs.MaxLength | src/components/liveEvent/ChatInput.jsx:35 | 500 for chat, 300 for questions (QnaInput.jsx:46) |
| LiveInputs.CheckRules | src/components/liveEvent/ChatInput.jsx:33-36 | passes iff non-empty and within the limit counted in UTF-16 code units, as `String.length` counts; the too-long message otherwise (also QnaInput.jsx:43-49) |
| LiveInputs.ErrorText | src/components/liveEvent/QnaInput.jsx:68-70 | only the question field shows text, and only when its rules fail |
| LiveInputs.SendGuard | src/components/liveEvent/ChatInput.jsx:10-17 | sends iff not blank and not in flight; the sent text is the trimmed value, non-empty and unpadded |
| LiveInputs.ControlsDisabled | src/components/liveEvent/ChatInput.jsx:38-42 | enabled iff neither the prop nor the in-flight flag |
| LiveInputs.SentWithinLimit | src/components/liveEvent/ChatInput.jsx:17-35 | a sent text is non-empty and within the limit in UTF-16 code units |
| LiveInputs.PaddingIgnored | src/components/liveEvent/ChatInput.jsx:10-17 | padding does not change whether or what is sent |
| LiveInputs.InputBox.constructor | src/components/liveEvent/ChatInput.jsx:7 | empty, not in flight |
| LiveInputs.InputBox.Edit | src/components/liveEvent/ChatInput.jsx:38 | a disabled field ignores typing |
| LiveInputs.InputBox.Submit | src/components/liveEvent/ChatInput.jsx:9-42 | a call starts iff the page's `disabled` flag is off, the rules pass and the guard sends; the flag is set and the trimmed text sent |
| LiveInputs.InputBox.Settle | src/components/liveEvent/ChatInput.jsx:18-24 | flag cleared always; the field cleared only on success (also QnaInput.jsx:21-26) |
| Qna.NameOr | src/components/liveEvent/QnaItem.jsx:40-52 | the name when present and non-empty, else the fallback |
| Qna.ItemViewOf | src/components/liveEvent/QnaItem.jsx:12-94 | nothing without a question or asker; the answer iff answered with text; controls only for answerers |
| Qna.AnswerGuard | src/components/liveEvent/QnaItem.jsx:23-25 | submits iff not blank, with the trimmed text |
| Qna.AnswerEditor.constructor | src/components/liveEvent/QnaItem.jsx:9-10 | not answering, empty text |
| Qna.AnswerEditor.Open | src/components/liveEvent/QnaItem.jsx:60-62 | the button, shown while not answering, opens the form and keeps the text |
| Qna.AnswerEditor.Edit | src/components/liveEvent/QnaItem.jsx:70-76 | the field, shown while answering, changes the text only |
| Qna.AnswerEditor.Cancel | src/components/liveEvent/QnaItem.jsx:70-89 | the button, shown while answering, closes the form and keeps the text |
| Qna.AnswerEditor.SubmitAnswer | src/components/liveEvent/QnaItem.jsx:23-70 | the form, shown while answering, calls iff the guard passes, then closes and clears; otherwise nothing changes |
| Qna.InsertNewest | src/components/liveEvent/QnaList.jsx:18-20 | one longer, same elements plus the new one |
| Qna.SortNewest | src/components/liveEvent/QnaList.jsx:16-23 | a permutation of the questions, newest first |
| Qna.InsertKeepsOrder | src/components/liveEvent/QnaList.jsx:18-20 | inserting into a newest-first list keeps it newest-first |
| Qna.InsertWithTime | src/components/liveEvent/QnaList.jsx:18-20 | insertion keeps the order of equal timestamps |
| Qna.SortKeepsTies | src/components/liveEvent/QnaList.jsx:18-20 | the sort is stable: questions with one timestamp keep their order |
| Qna.SortOfSorted | src/components/liveEvent/QnaList.jsx:18-20 | a newest-first list is left as it is |
| Qna.SortIdempotent | src/components/liveEvent/QnaList.jsx:16-23 | sorting twice is sorting once |
| Qna.ListViewOf | src/components/liveEvent/QnaList.jsx:14-64 | loading and empty notes, select disabled, items sorted only for "newest" and otherwise as received |
| UserAdmin.SaveDecision | src/components/admin/UserListItem.jsx:34-51 | unchanged closes; an admin's own demotion is refused; otherwise the update for this user and role |
| UserAdmin.DeleteDecision | src/components/admin/UserListItem.jsx:62-76 | own row refused; a delete only when confirmed |
| UserAdmin.OwnAccountProtected | src/components/admin/UserListItem.jsx:41-155 | on their own row an admin can neither demote nor delete themselves |
| UserAdmin.EnabledSaveChangesSomething | src/components/admin/UserListItem.jsx:35-116 | an enabled save never takes the unchanged branch |
| UserAdmin.UserRow.constructor | src/components/admin/UserListItem.jsx:20-22 | not editing, the selection is the role |
| UserAdmin.UserRow.StartEdit | src/components/admin/UserListItem.jsx:134-146 | the button, shown outside editing where the rules allow, opens editing |
| UserAdmin.UserRow.SelectRole | src/components/admin/UserListItem.jsx:18-113 | the select, shown while editing and disabled during an update, changes the selection to one of the roles |
| UserAdmin.UserRow.CancelEdit | src/components/admin/UserListItem.jsx:122-131 | the button, shown while editing and disabled during an update, closes and resets the selection |
| UserAdmin.UserRow.SaveRole | src/components/admin/UserListItem.jsx:34-116 | the button, disabled during an update, acts per `SaveDecision`; the refusal resets to admin with a toast; the update is issued |
| UserAdmin.UserRow.SettleRoleUpdate | src/components/admin/UserListItem.jsx:48-58 | success toasts the role the request carried; on failure the server message and the selection reset; the editor closes either way |
| UserAdmin.UserRow.DeleteUser | src/components/admin/UserListItem.jsx:62-158 | the button, disabled during a deletion, acts per `DeleteDecision`; the refusal toasts |
| UserAdmin.UserRow.SettleDelete | src/components/admin/UserListItem.jsx:77-82 | success toast, or the server message |
| RouteGuard.Guard | src/hooks/useRequireAuth.jsx:28-54 | login with the location iff signed out; home with a toast iff a restricting list lacks the role; otherwise the outlet |
| RouteGuard.UnrestrictedAdmitsAll | src/hooks/useRequireAuth.jsx:40 | a missing or empty role list admits every signed-in user |
| RouteGuard.MoreRolesAdmitMore | src/hooks/useRequireAuth.jsx:40-41 | extending a non-empty role list never shuts out an admitted user |
| Pagination.TotalPagesOf | src/pages/OrganizerDashboardPage.jsx:95-97 | reported count, 0 when missing or zero |
| Pagination.AfterPrevious | src/pages/OrganizerDashboardPage.jsx:34-45 | moves back one iff shown, not fetching and past page 1 |
| Pagination.AfterNext | src/pages/OrganizerDashboardPage.jsx:34-56 | moves on one iff shown, not fetching and before the last page |
| Pagination.ClicksStayInRange | src/pages/OrganizerDashboardPage.jsx:35-69 | no sequence of clicks leaves pages 1..total |
| Pagination.NextReachesEveryPage | src/pages/OrganizerDashboardPage.jsx:35-69 | every page is reachable from page 1 |
| Pagination.NextFrom | src/pages/OrganizerDashboardPage.jsx:35-40 | k clicks on Next move k pages when room remains |
| Pagination.OrganizerQuery | src/pages/OrganizerDashboardPage.jsx:80-85 | page, limit 5, by start time descending |
| Pagination.AdminQuery | src/pages/AdminUserManagementPage.jsx:78-83 | page, limit 10, by creation ascending |
| Pagination.ContentOf | src/pages/OrganizerDashboardPage.jsx:105-135 | exactly one branch: spinner, error with fallback, empty note, table of the items, or the note (also AdminUserManagementPage.jsx:99-133) |
| Pagination.PaginationOnlyBesideTable | src/pages/OrganizerDashboardPage.jsx:195-202 | the controls show only beside the table |
| Pagination.StatValues | src/pages/OrganizerDashboardPage.jsx:158-182 | each of the five values is the reported one, 0 only when missing |
| Pagination.Pager.constructor | src/pages/OrganizerDashboardPage.jsx:69 | page 1 |
| Pagination.Pager.ClickPrevious | src/pages/AdminUserManagementPage.jsx:23-33 | a click on the shown control: the new page is `AfterPrevious`, and stays in range |
| Pagination.Pager.ClickNext | src/pages/AdminUserManagementPage.jsx:23-33 | a click on the shown control: the new page is `AfterNext`, and stays in range |
| CacheTags.ProvidesList | src/api/registrationApiSlice.js:4-9 | the list tag first, then one tag per id in order; the list tag alone without results |
| CacheTags.ListTagReachesList | src/api/eventApiSlice.js:4-9 | invalidating the list tag refetches every list query of that type |
| CacheTags.Key | src/api/userApiSlice.js:51-53 | a string tag id is its own cache key; every object id is filed under "[object Object]" |
| CacheTags.Entries | src/api/eventApiSlice.js:19-40 | the cache entries a tag list names: one type and key per tag, and no others |
| CacheTags.InvalidatesIffShared | src/api/eventApiSlice.js:19-40 | a mutation refetches a query exactly when their tags name a common cache entry |
| RegistrationApi.RequestsNameTheirEvent | src/api/registrationApiSlice.js:14-63 | different events give different requests; register and unregister never coincide |
| RegistrationApi.RegisterInvalidates | src/api/registrationApiSlice.js:19-22 | registering invalidates the user's own entry and that event's status entry |
| RegistrationApi.UnregisterInvalidates | src/api/registrationApiSlice.js:31-34 | unregistering invalidates the same two entries |
| RegistrationApi.EventRegistrationsTags | src/api/registrationApiSlice.js:44 | an event's registration list provides only the entry "EVENT-" plus the event id |
| RegistrationApi.UserRegistrationsTags | src/api/registrationApiSlice.js:54 | the user's registrations provide the list entries of their results plus the user's own entry |
| RegistrationApi.StatusTags | src/api/registrationApiSlice.js:64 | a status check provides only the entry of the event id plus "-STATUS" |
| RegistrationApi.ChangeRefetchesOwnStatus | src/api/registrationApiSlice.js:19-64 | both mutations refetch that event's status |
| RegistrationApi.ChangeKeepsOtherStatus | src/api/registrationApiSlice.js:19-64 | and no other event's status |
| RegistrationApi.ChangeRefetchesUserRegistrations | src/api/registrationApiSlice.js:48-55 | both mutations refetch the user's registrations whatever they hold |
| RegistrationApi.ChangeKeepsEventRegistrations | src/api/registrationApiSlice.js:38-45 | neither refetches an event's registration list |
| EventApi.CreateRefetchesListsOnly | src/api/eventApiSlice.js:20-40 | creating refetches every list and no single event |
| EventApi.EventsTags | src/api/eventApiSlice.js:20 | the event list provides the list entry and one entry per returned event, and none else |
| EventApi.EventByIdTags | src/api/eventApiSlice.js:29 | one event provides only its own entry |
| EventApi.CreateEventInvalidates | src/api/eventApiSlice.js:40 | creating invalidates only the list entry |
| EventApi.UpdateEventInvalidates | src/api/eventApiSlice.js:51-54 | updating invalidates that event's entry and the list entry |
| EventApi.DeleteEventInvalidates | src/api/eventApiSlice.js:64-67 | deleting invalidates that event's entry and the list entry |
| EventApi.ChangeRefetchesEventAndLists | src/api/eventApiSlice.js:51-67 | update and delete refetch that event and every list |
| EventApi.ChangeKeepsOtherEvent | src/api/eventApiSlice.js:51-67 | and no other single event |
| UserApi.AllUsersRequest | src/api/userApiSlice.js:33-35 | the argument is ignored: always a plain GET of "/users/" |
| UserApi.UpdateRoleRequest | src/api/userApiSlice.js:46-50 | PATCH with the bare role as the body |
| UserApi.CurrentUserTags | src/api/userApiSlice.js:17 | the profile query provides only the entry "ME" |
| UserApi.UpdateProfileInvalidates | src/api/userApiSlice.js:28 | the profile update invalidates only the entry "ME" |
| UserApi.AllUsersTags | src/api/userApiSlice.js:35 | the user list provides the list entry and one entry per returned user, and none else |
| UserApi.UserByIdTags | src/api/userApiSlice.js:41 | one user provides only their own entry |
| UserApi.UpdateRoleInvalidatesAsWritten | src/api/userApiSlice.js:51-54 | as written: a role change invalidates "[object Object]" and the list entry, whatever user it changes |
| UserApi.UpdateRoleInvalidates | src/api/userApiSlice.js:51-54 | corrected: the changed user's entry and the list entry |
| UserApi.DeleteUserInvalidates | src/api/userApiSlice.js:63-66 | deleting invalidates that user's entry and the list entry |
| UserApi.ProfileUpdateRefetchesProfileOnly | src/api/userApiSlice.js:17-28 | the profile update refetches the profile only |
| UserApi.DeleteRefetchesUserAndLists | src/api/userApiSlice.js:41-66 | deleting refetches that user and every list |
| UserApi.RoleChangeMissesUser | src/api/userApiSlice.js:51-54 | as written: the user lists are refetched, the changed user's entry never |
| UserApi.RoleChangeRefetchesUser | src/api/userApiSlice.js:51-54 | corrected: the changed user and every list are refetched, as for a deletion |
| FormRules.LengthRule | src/components/auth/RegisterForm.jsx:81-88 | required first, then the minimum length in UTF-16 code units; ok iff both hold |
| JsStrings.Utf16Length | src/components/liveEvent/ChatInput.jsx:35 | `String.length`: between the number of characters and twice that |
| JsStrings.Utf16LengthConcat | src/components/liveEvent/ChatInput.jsx:35 | the length of a concatenation is the sum of the lengths |
| JsStrings.Utf16LengthIsSize | src/components/liveEvent/ChatInput.jsx:35 | `length` equals the character count iff no character is outside the Basic Multilingual Plane |
| JsStrings.Utf16LengthOfTrim | src/components/liveEvent/ChatInput.jsx:17-35 | trimming never makes `length` larger |
| FormRules.EmailRule | src/components/auth/RegisterForm.jsx:110-116 | passes iff non-empty and the pattern matches somewhere |
| FormRules.EmailUnanchored | src/components/auth/RegisterForm.jsx:113 | text around a match does not stop it matching |
| FormRules.EmailNeedsAtAndDot | src/components/auth/RegisterForm.jsx:113 | a match needs an `@` before a dot and at least five characters |
| FormRules.EmailExamples | src/components/auth/LoginForm.jsx:82 | "a@b.c" and an address inside a sentence match; a blank before the `@` does not |
| FormRules.ErrorMessage | src/components/events/EventForm.jsx:75-78 | `data.message`, else `error`, else the default |
| FormRules.ApplyErrors | src/components/events/EventForm.jsx:83-85 | every named field gets an error; the keys are the old ones plus the named fields |
| FormRules.UnnamedKept | src/components/events/EventForm.jsx:83-85 | fields no entry names keep their error |
| FormRules.LastEntryWins | src/components/events/EventForm.jsx:83-85 | a field gets the message of the last entry naming it |
| FormRules.FormErrors.constructor | src/components/events/EventForm.jsx:22-29 | no errors |
| FormRules.FormErrors.SetError | src/components/events/EventForm.jsx:84 | one field's error replaced |
| FormRules.FormErrors.SetEach | src/components/events/EventForm.jsx:83-85 | the loop leaves `ApplyErrors` of the entries |
| FormRules.FormErrors.Report | src/components/events/EventForm.jsx:82-88 | per-field, single-field or root error as planned |
| FormRules.FormErrors.Clear | src/components/events/EventForm.jsx:96 | `reset` leaves no errors |
| EventForm.FieldInstant | src/components/events/EventForm.jsx:36-41 | the date field's instant plus the local offset is a whole minute, the last one at or before the time |
| EventForm.DefaultsOf | src/components/events/EventForm.jsx:31-44 | empty texts, "webinar", no times, no limit; an edited event's texts with those fallbacks, each time present exactly when set and then the time as the date field reads its minute, and a non-zero limit as that number |
| EventForm.DefaultTimesRoundTrip | src/components/events/EventForm.jsx:36-58 | a whole-minute time comes back shifted by the local offset |
| EventForm.StartCheck | src/components/events/EventForm.jsx:193-209 | required; then not before a minute ago; then before a set end |
| EventForm.EndCheck | src/components/events/EventForm.jsx:223-230 | required; then after a set start |
| EventForm.TimeRulesAgree | src/components/events/EventForm.jsx:197-226 | `now - 60000 <= start < end` passes both; `start == end` fails both |
| EventForm.OrderRulesMatch | src/components/events/EventForm.jsx:202-226 | past the time check, both rules reject the same pairs |
| EventForm.AttendeesCheck | src/components/events/EventForm.jsx:245-249 | empty, or a whole number at least 1 |
| EventForm.TruncateReal | src/components/events/EventForm.jsx:60 | `parseInt` keeps the integer part, toward zero |
| EventForm.AttendeesValue | src/components/events/EventForm.jsx:60 | null exactly for an empty field or 0 |
| EventForm.SubmissionOf | src/components/events/EventForm.jsx:56-66 | every field; times or null; the limit key only when it is a number |
| EventForm.ValidPayload | src/components/events/EventForm.jsx:56-249 | a valid form sends both times in order, and the limit exactly when entered |
| EventForm.FormValid | src/components/events/EventForm.jsx:129-249 | the rules pass exactly for non-empty texts, both times set with the start no more than a minute ago and before the end, and an empty or whole limit of at least 1 |
| EventForm.BuildSubmission | src/components/events/EventForm.jsx:56-66 | the spread, the conversions and the delete give `SubmissionOf` |
| EventForm.CreateErrorPlan | src/components/events/EventForm.jsx:82-88 | per-field iff an `errors` array exists (even empty); otherwise a root error with the toasted message |
| EventForm.SuccessEffect | src/components/events/EventForm.jsx:93-100 | iff success and a non-empty id: the message or default toast and the event's page |
| EventForm.EventEditor.constructor | src/components/events/EventForm.jsx:29-45 | values are the defaults |
| EventForm.EventEditor.Edit | src/components/events/EventForm.jsx:125-253 | values change only |
| EventForm.EventEditor.Submit | src/components/events/EventForm.jsx:54-70 | sends `SubmissionOf` iff the rules pass |
| EventForm.EventEditor.Fail | src/components/events/EventForm.jsx:73-89 | the error toast, then the errors of the plan |
| EventForm.EventEditor.Succeeded | src/components/events/EventForm.jsx:93-100 | toast, reset to defaults with no errors, and navigation iff the success effect applies |
| AuthForms.ConfirmRule | src/components/auth/RegisterForm.jsx:168-172 | required, then equal to the password |
| AuthForms.ValidRegistration | src/components/auth/RegisterForm.jsx:29-172 | a valid form sends a name of at least 2 and a password of at least 6 UTF-16 code units, the password equal to its confirmation, and a matching email; stripping loses nothing else |
| AuthForms.StripConfirm | src/components/auth/RegisterForm.jsx:29 | the sent user with the confirmation put back is the form data: only `confirmPassword` is dropped |
| AuthForms.RegisterErrorPlan | src/components/auth/RegisterForm.jsx:40-47 | field errors first; then a taken email, in any case; then a root error |
| AuthForms.TakenEmailAnyCase | src/components/auth/RegisterForm.jsx:42 | any letter case of "email already exists" anywhere in the message puts the error on the email field |
| AuthForms.RegisterForm.constructor | src/components/auth/RegisterForm.jsx:10-16 | nothing sent, no errors |
| AuthForms.RegisterForm.Submit | src/components/auth/RegisterForm.jsx:27-61 | the handler runs iff the form passes its rules, and then sends the data without the confirmation |
| AuthForms.RegisterForm.Fail | src/components/auth/RegisterForm.jsx:34-47 | toast, then the errors of the plan |
| AuthForms.RegisterForm.Succeeded | src/components/auth/RegisterForm.jsx:52-57 | toast and the login page |
| AuthForms.RulesImplyGuard | src/components/auth/LoginForm.jsx:28-111 | a form that passes its rules always passes the handler's check |
| AuthForms.LoginGuard | src/components/auth/LoginForm.jsx:28-31 | the handler refuses exactly when the email or the password is empty |
| AuthForms.LoginOutcomeOf | src/components/auth/LoginForm.jsx:36-46 | data dispatches `setCredentials`; no data or a rejection toasts, with the default for missing data |
| AuthForms.LoginForm.constructor | src/components/auth/LoginForm.jsx:11-23 | nothing sent |
| AuthForms.LoginForm.Submit | src/components/auth/LoginForm.jsx:26-111 | the handler runs iff the form passes its rules, and then always calls the server: the missing-field toast never shows |
| AuthForms.LoginForm.Respond | src/components/auth/LoginForm.jsx:36-56 | the store gets `SetCredentialsStep`; toasts; every fulfilled call goes home |
| AuthForms.LoginPersists | src/components/auth/LoginForm.jsx:38-39 | logging in with a user and token survives a reload (src/slices/authSlice.js:20-25) |
| ProfileForm.TextOrEmpty | src/components/profile/EditProfileForm.jsx:20-21 | the value, or "" |
| ProfileForm.ProfileErrorPlan | src/components/profile/EditProfileForm.jsx:48-63 | field errors first; then 409 or a message naming email; then the root error |
| ProfileForm.ConflictBlamesEmail | src/components/profile/EditProfileForm.jsx:53 | a 409 lands on the email field whatever the message |
| ProfileForm.ProfileEditor.constructor | src/components/profile/EditProfileForm.jsx:18-23 | defaults from the user with "" fallbacks; clean |
| ProfileForm.ProfileEditor.Edit | src/components/profile/EditProfileForm.jsx:112-150 | values change, defaults do not |
| ProfileForm.ProfileEditor.Submit | src/components/profile/EditProfileForm.jsx:30-146 | the handler runs iff the form passes its rules; it then sends a changed form, or gives an unchanged one the note and one close; a form that fails its rules changes nothing |
| ProfileForm.ProfileEditor.Fail | src/components/profile/EditProfileForm.jsx:41-63 | toast, then the errors of the plan |
| ProfileForm.ProfileEditor.Succeeded | src/components/profile/EditProfileForm.jsx:68-73 | toast and one close |
| ProfileForm.ProfileEditor.UserChanged | src/components/profile/EditProfileForm.jsx:76-83 | a present user resets values and defaults and clears the errors, leaving the form clean |
| ProfileForm.EditBackIsUnchanged | src/components/profile/EditProfileForm.jsx:32-36 | editing back to the starting values sends nothing |

## Left out

- **Socket connection.** The socket.io connection, its handshake, the reconnection options and the built-in `connect`/`disconnect`/`connect_error` handlers are left out. "Connected" is just a flag. The token is a parameter, not a store lookup.
- **Callbacks.** They are opaque ids and do not run. Re-entrant calls from inside a callback are not modelled.
- **Storage.** Browser storage is a map from keys to text. `JSON.parse` is a parameter of the functions that read the user back (`None` where it throws); the reload lemmas assume only that it reads back what `JSON.stringify` wrote for a user. `UserText` does not escape quotes in the user's fields, and the contents of non-user objects and arrays are not kept.
- **Dates.**
  - Date parsing and formatting are left out; each time is an integer or an invalid date.
  - The ISO text of a default time is seen only as the instant it reads back as.
  - Invalid `createdAt` values are not modelled in the Q&A sort.
- **Vendor script.** The Jitsi script, the iframe and the DOM are left out. The widget is reduced to construct, dispose and joined; layout and toolbar options are omitted.
- **Form library.** Its internals are left out: the rule order (required, length, pattern, validate) and the `valueAsNumber` reading are modelled as they are documented. Field error display is not modelled. Errors from the rules are not stored; the stored errors are the ones a failed request sets, until a `reset`. Errors the library drops when a field later passes its rules are kept. The `trim: true` option is not one the library knows, so the rules check the raw text.
- **Effects.** Toasts, navigation, requests and `window.confirm` are recorded as outputs or taken as parameters. Console output is left out.
- **Stale state within one render.** A flag set by a handler is visible at once. A second submit within the same render is not modelled.
- **Request builders.** `RegisterRequest`, `EventsRequest` and the other request builders have no contracts beyond their definition. Parameters and bodies are opaque.
- **Organizer dashboard queries.** `src/pages/OrganizerDashboardPage.jsx` imports two query hooks that `eventApiSlice.js` does not define. The page's queries are therefore modelled by their state alone.
- **Browser validation.** The email fields are `type="email"` and no form sets `noValidate`. The browser's own constraint check, which blocks a submit such as "write to a@b.c today", is not modelled. Neither is the sanitising that strips padding from an email value. The submit handlers and the `EmailRule` therefore see text the browser would have refused or trimmed first. The attendee field is `type="number"` with `min="1"` and the default step of 1, so the browser also refuses 0, 1.5 and badly formed numbers before the form library runs its rules; the model lets such values reach `EventForm.AttendeesCheck`, whose "at least one" and "whole number" messages the page therefore never shows.
- **Letter case.** `FirstUpper`, `ToLower` and `LowerChar` change ASCII letters only; full Unicode case mapping (for instance "ß" to "SS") is not modelled.
- **Number parsing.** `TruncateReal` models `parseInt` on numbers whose magnitude is at least 1e-6 and below 1e21, which `String` writes without an exponent. Outside that range `String` uses exponent notation, and `parseInt` reads only the leading digits (`String(1e-7)` is "1e-7", so `parseInt` gives 1 where `TruncateReal` gives 0). That case is not modelled; the attendee rules never let such a value into the payload.
- Initials.AtMostTwo: the bound holds under ASCII case mapping. JavaScript's `toUpperCase` can lengthen a character ("ß" becomes "SS", so "ß x" gives "SSX"). `charAt(0)` takes one UTF-16 code unit, so a character outside the Basic Multilingual Plane contributes half of itself. `FirstUpper` models neither.
- SocketModel.ConnectSpec: a socket that exists but is not connected is replaced without being disconnected. The model keeps one socket. The old socket may still connect, and its application listeners forward into the same callback lists, so each callback would then run once per socket. That is not modelled.
- SocketModel.SocketService.Connect: as `ConnectSpec`, the replaced socket and its listeners are dropped from the model.
- RegistrationApi.ChangeKeepsEventRegistrations: the claim holds only for ids of one fixed length, such as the server's 24-character ids. Ids of other shapes could collide.
- EventApi.CreateRefetchesListsOnly: an event whose id is the text "LIST" is excluded. It would share the list tag.
- UserApi.RoleChangeMissesUser: ids equal to "[object Object]" or "LIST" are excluded. They would share the key.
- **Presentation.** Styling, icons and purely presentational pages and components are not part of this model. Neither are the axios wrapper with its token refresh queue, the base API and the store setup.
- **Placeholders.** Chat and Q&A session state are placeholders in the shown pages and are not modelled.

## Findings

| source | as written | input that shows it | evidently intended | confidence | as-written member | corrected member |
|---|---|---|---|---|---|---|
| src/slices/authSlice.js:48 | a malformed payload removes the key `token`, but the token is stored under `accessToken` | a stored token "t", then `setCredentials({user: null})`, then a reload: the token "t" is back | remove `accessToken`, as `logOut` does | not executed | AuthSlice.MalformedKeepsStaleToken | AuthSlice.MalformedIntendedSignsOut |
| src/api/userApiSlice.js:51-52 | the invalidated tag id is the whole argument object `{userId, role}`, which the cache files under "[object Object]" | `updateUserRole({userId: "u1", role: "admin"})` leaves `getUserById("u1")` cached | use `userId` as the tag id | not executed | UserApi.RoleChangeMissesUser | UserApi.RoleChangeRefetchesUser |
