# smart-home-manager: the client-side transition rules

smart-home-manager is a React prototype of a residents' app for an apartment
complex. Most of it is static mock data rendered as markup. The logic that
decides what happens when a resident presses a button sits in a handful of
small handlers inside the components. This project models those handlers in
Dafny as pure transition functions `State × Event → State × Outcome`. A toast
becomes an outcome tag, and the clock readings become parameters.

| module | file | models |
|---|---|---|
| `Auth` | auth.dfy | the sign-in steps phone → code → apartment, their guards, the "change number" edge, and the emitted profile |
| `Onboarding` | onboarding.dfy | the five-slide carousel with "next", "skip" and the last-slide rules |
| `Navigator` | navigator.dfy | the main shell's current screen, the home view's buttons and the back action of every leaf screen |
| `RequestsScreen` | requests_screen.dfy | the requests screen's creation dialog and the category look-up with its fallback |
| `IndexPage` | index_page.dfy | the older dashboard page's creation form and its "open requests" figure |
| `Assistant` | assistant.dfy | the assistant's send handler, its keyword reply classifier and the microphone toggle |
| `ResidentsChat` | residents_chat.dfy | the chat list's search filter, the send guard and opening or closing a conversation |
| `Text` | text.dfy | JavaScript `trim`, `toLowerCase` and `includes` on strings |
| `Sequences` | sequences.dfy | JavaScript `Array.prototype.filter` |
| `RequestStatus`, `Optional` | request_status.dfy, option.dfy | the shared request status and an option type |

Observations the model makes precise:

- The whole-run invariant of the sign-in screen is `Auth.RunKeepsInvariant`. Whatever the resident types, every profile the screen emits has a phone number of at least ten characters, a non-empty apartment and a non-empty entrance. The complex is always the constant "ЖК Солнечный".
- The navigator is a star around the home view (`Navigator.TraceIsStar`). No home button opens the profile screen. `Navigator.ProfileUnreachable` shows that the profile screen, and the logout button on it, cannot be reached from the home view.
- The assistant's keyword match looks inside words. "Искрит провод" ("a wire is sparking") contains "вод" and gets the water-outage reply (`Assistant.WireQuestionGetsWaterReply`).
- The sign-in screen does not let the resident choose a residential complex, and nothing validates it: `AuthScreen.tsx` writes a fixed complex into every profile.
- The "at least 20 characters" note under the request description is display text only. No handler enforces it.

## Model

| member | source | states |
|---|---|---|
| Auth.Init | src/components/AuthScreen.tsx:15-20 | the screen starts on the phone step with status owner and all text fields empty |
| Auth.HandlePhoneSubmit | src/components/AuthScreen.tsx:22-29 | the flow moves to the code step exactly when the phone has at least 10 characters; otherwise the state is unchanged and the toast is an error; no field other than the step changes |
| Auth.HandleCodeSubmit | src/components/AuthScreen.tsx:31-37 | the flow moves to the apartment step exactly when the code has exactly 4 characters, and without a toast; otherwise the state is unchanged and the toast is an error |
| Auth.HandleApartmentSubmit | src/components/AuthScreen.tsx:39-55 | a profile is emitted exactly when apartment and entrance are both non-empty, and it is exactly the phone, apartment, entrance and status of the form plus the fixed complex; otherwise only an error toast |
| Auth.HandleChangeNumber | src/components/AuthScreen.tsx:141 | "change number" returns from the code step to the phone step and keeps every field value |
| Auth.ClipCode | src/components/AuthScreen.tsx:126-134 | the code field holds at most 4 characters: shorter input is kept whole, longer input is cut to its first 4 characters |
| Auth.Handle | src/components/AuthScreen.tsx:72-195 | an event whose control is not rendered on the current step leaves the state unchanged and raises nothing |
| Auth.HandlePreservesReachable | src/components/AuthScreen.tsx:22-54 | every event keeps "code step ⇒ phone ≥ 10 characters" and "apartment step ⇒ phone ≥ 10 and code = 4 characters", and any emitted profile is valid |
| Auth.RunKeepsInvariant | src/components/AuthScreen.tsx:22-145 | over any sequence of events from a reachable state, the invariant holds at the end and every emitted profile has a phone of at least 10 characters, non-empty apartment and entrance, and the fixed complex |
| Auth.InitReachable | src/components/AuthScreen.tsx:15-20 | the initial state satisfies the reachability invariant |
| Auth.CompleteSignInRun | src/components/AuthScreen.tsx:22-195 | from mount, entering a ten-digit phone, a four-digit code, an apartment and an entrance with the three submits emits exactly the profile with status owner and the fixed complex |
| Auth.SignInScenario | src/components/AuthScreen.tsx:22-54 | a 5-digit phone is refused and a 10-digit one accepted; a 3-digit code is refused and a 4-digit one accepted; an empty apartment is refused; a complete form emits the profile with status owner |
| Onboarding.Init | src/components/OnboardingScreen.tsx:10 | the carousel starts on slide 0 |
| Onboarding.HandleNext | src/components/OnboardingScreen.tsx:54-60 | "next" completes exactly on the last slide and leaves the index there; elsewhere it advances by one without completing; the index stays a valid slide |
| Onboarding.HandleSkip | src/components/OnboardingScreen.tsx:62-64 | "skip" completes from any slide and leaves the index alone |
| Onboarding.ButtonLabel | src/components/OnboardingScreen.tsx:126 | the main button shows the "start" label exactly on the last slide |
| Onboarding.SkipFinishesBeforeLast | src/components/OnboardingScreen.tsx:69 | "skip" finishes the carousel exactly on the slides where it is rendered, which are all slides before the last |
| Onboarding.Step | src/components/OnboardingScreen.tsx:54-64 | a finished carousel ignores further presses |
| Onboarding.PressNextAdvances | src/components/OnboardingScreen.tsx:54-60 | from slide s, n presses of "next" with s + n < 5 show slide s + n without completing |
| Onboarding.FiveNextsComplete | src/components/OnboardingScreen.tsx:12-60 | from the first slide, 0 to 4 presses of "next" leave a slide on screen and the fifth completes: exactly five presses are needed |
| Onboarding.StepNeverGoesBack | src/components/OnboardingScreen.tsx:54-69 | an action that leaves a slide on screen either keeps the slide or moves forward by exactly one: the carousel never moves backwards |
| Navigator.ScreenCount | src/components/MainApp.tsx:21-32 | the screen type has exactly eleven values |
| Navigator.Init | src/components/MainApp.tsx:35 | the shell starts on the home screen |
| Navigator.Target | src/components/MainApp.tsx:83-303 | no home-view button sets the profile screen |
| Navigator.RenderScreen | src/components/MainApp.tsx:40-65 | every non-home screen renders its own leaf screen; only home reaches the default branch, which renders nothing |
| Navigator.Render | src/components/MainApp.tsx:67-69 | the home view is shown exactly when the current screen is home; otherwise only the current leaf screen is shown |
| Navigator.OnBack | src/components/MainApp.tsx:42-61 | the back action of every leaf screen sets the current screen to home |
| Navigator.Step | src/components/MainApp.tsx:40-308 | on the home view a button sets exactly its target screen; on a leaf screen the back action goes home; events whose control is not on screen change nothing |
| Navigator.StarTopology | src/components/MainApp.tsx:40-308 | every move starts or ends at home: no event goes from one leaf screen to another |
| Navigator.Trace | src/components/MainApp.tsx:35-308 | a run of n events visits n + 1 screens, starting with the initial one, and each next screen is `Step` of the previous screen and the event |
| Navigator.TraceIsStar | src/components/MainApp.tsx:40-308 | in every run, two consecutive screens that differ include home |
| Navigator.PaymentsAndBack | src/components/MainApp.tsx:93 | the balance card opens payments, and back from there returns home |
| Navigator.ButtonFor | src/components/MainApp.tsx:83-303 | every screen except profile has a home-view button that opens it, the bottom bar's home button included |
| Navigator.ProfileUnreachable | src/components/MainApp.tsx:50-51 | no run starting anywhere but profile ever shows the profile screen |
| RequestsScreen.Init | src/components/screens/RequestsScreen.tsx:31-57 | the screen starts with the two sample requests, an empty form and the dialog closed |
| RequestsScreen.CreateRequest | src/components/screens/RequestsScreen.tsx:80-100 | creation succeeds exactly when title, category and description are all non-empty; on failure nothing changes; on success the list is the new request followed by the old list, the new request is open and carries the form's title, category, description and photos, the form is reset and the dialog closes |
| RequestsScreen.FindCategory | src/components/screens/RequestsScreen.tsx:111 | the result is the first picker position whose value is the key, or none exactly when no position has it |
| RequestsScreen.GetCategoryData | src/components/screens/RequestsScreen.tsx:110-112 | a listed category gives exactly its own picker entry, with its caption and icon; an unlisted one gives the "other" entry at index 5 |
| RequestsScreen.Handle | src/components/screens/RequestsScreen.tsx:182-296 | the "create request" button opens the dialog and changes nothing else; while the dialog is closed, every other action is ignored |
| RequestsScreen.InitWellFormed | src/components/screens/RequestsScreen.tsx:31-57 | the sample requests use picker categories, and the form starts without a category or photo |
| RequestsScreen.HandlePreservesWellFormed | src/components/screens/RequestsScreen.tsx:80-296 | every action keeps all listed categories, and the form's category, inside the picker's values |
| RequestsScreen.RunPreservesWellFormed | src/components/screens/RequestsScreen.tsx:80-296 | any sequence of actions keeps the screen well formed |
| RequestsScreen.CategoryLookupNeverFallsBack | src/components/screens/RequestsScreen.tsx:131-132 | after any sequence of actions, every listed request has a picker category, so its card shows that category's own entry |
| IndexPage.Init | src/pages/Index.tsx:29-64 | the page starts with the three sample requests and an empty form |
| IndexPage.CreateRequest | src/pages/Index.tsx:94-113 | creation succeeds exactly when title and category are non-empty; on failure nothing changes; on success the new open request for apartment "45" is prepended to the old list and the form is reset |
| IndexPage.EmptyDescriptionAccepted | src/pages/Index.tsx:95-98 | a form with an empty description is accepted and creates a request with an empty description |
| IndexPage.OpenCount | src/pages/Index.tsx:190 | the open count never exceeds the list length, and equals it exactly when no request is completed |
| IndexPage.OpenCountComplement | src/pages/Index.tsx:190 | the open count plus the number of completed requests equals the list length |
| IndexPage.CreateRaisesOpenCount | src/pages/Index.tsx:104-110 | the open count never exceeds the list length, and a successful creation raises it by exactly one |
| IndexPage.InitialOpenCount | src/pages/Index.tsx:29-58 | the page starts with two open requests |
| Assistant.Init | src/components/screens/AIAssistantScreen.tsx:20-29 | the log starts with one bot greeting, the input is empty and nothing is recording |
| Assistant.MessageText | src/components/screens/AIAssistantScreen.tsx:39 | a non-empty explicit text takes precedence; an empty or missing one falls back to the input |
| Assistant.HandleSend | src/components/screens/AIAssistantScreen.tsx:38-50 | a send whose text is blank after trimming changes nothing; otherwise exactly one user message with that text is appended, the earlier messages are kept, the input is cleared and recording is untouched |
| Assistant.WhitespaceSendIgnored | src/components/screens/AIAssistantScreen.tsx:39-40 | a send whose text consists only of whitespace changes nothing |
| Assistant.HandleVoiceInput | src/components/screens/AIAssistantScreen.tsx:85-88 | the microphone flips the recording flag, keeps messages and input, and reports "listening" exactly when recording starts |
| Assistant.VoiceToggleTwice | src/components/screens/AIAssistantScreen.tsx:86 | two presses of the microphone restore the state |
| Assistant.Classify | src/components/screens/AIAssistantScreen.tsx:63-83 | the reply is the first topic, in the order leak, electricity, payment, water, whose keyword the lower-cased question contains; every earlier topic is not mentioned |
| Assistant.FallbackIffNoTopic | src/components/screens/AIAssistantScreen.tsx:82 | the default reply is chosen exactly when the question contains no keyword |
| Assistant.ClassifyIgnoresCase | src/components/screens/AIAssistantScreen.tsx:64 | a question and its lower-cased form get the same reply |
| Assistant.LeakQuestionTopic | src/components/screens/AIAssistantScreen.tsx:91 | the first quick question and the phrase sent by the voice input get the leak reply |
| Assistant.LightQuestionTopic | src/components/screens/AIAssistantScreen.tsx:33 | the second quick question gets the electricity reply |
| Assistant.PaymentQuestionTopic | src/components/screens/AIAssistantScreen.tsx:34 | the third quick question gets the payment reply |
| Assistant.WaterQuestionTopic | src/components/screens/AIAssistantScreen.tsx:35 | the fourth quick question gets the water-outage reply |
| Assistant.WaterQuestionLowered | src/components/screens/AIAssistantScreen.tsx:35 | the lower-cased fourth quick question |
| Assistant.WireQuestionGetsWaterReply | src/components/screens/AIAssistantScreen.tsx:78-80 | a keyword inside a longer word matches: "Искрит провод" gets the water-outage reply |
| ResidentsChat.Init | src/components/screens/ResidentsChat.tsx:32-34 | no conversation is open, and the message and search query are empty |
| ResidentsChat.FilteredChats | src/components/screens/ResidentsChat.tsx:108-110 | the filtered list is an order-preserving subsequence of the chats; a chat is in it exactly when it is in the list and its lower-cased name contains the lower-cased query, and it occurs as often as in the list |
| ResidentsChat.EmptyQueryKeepsAll | src/components/screens/ResidentsChat.tsx:108-110 | an empty query lists every chat, in order |
| ResidentsChat.SearchIgnoresQueryCase | src/components/screens/ResidentsChat.tsx:109 | a query and its lower-cased form list the same chats |
| ResidentsChat.HandleSendMessage | src/components/screens/ResidentsChat.tsx:101-106 | a message goes out exactly when it is not all whitespace, and then the box is cleared; otherwise the state is unchanged |
| ResidentsChat.SelectChat | src/components/screens/ResidentsChat.tsx:222 | selecting a chat makes its id the open conversation and keeps message and query |
| ResidentsChat.CloseChat | src/components/screens/ResidentsChat.tsx:117 | back closes the conversation and keeps message and query |
| ResidentsChat.SelectThenBack | src/components/screens/ResidentsChat.tsx:112-117 | selecting any listed chat shows its conversation, and back returns to the list |
| Text.TrimStart | src/components/screens/ResidentsChat.tsx:102 | removes exactly the leading whitespace: the result is a suffix of the input, it does not start with whitespace, and the removed prefix is all whitespace |
| Text.TrimEnd | src/components/screens/ResidentsChat.tsx:102 | removes exactly the trailing whitespace: the result is a prefix of the input, it does not end with whitespace, and the removed suffix is all whitespace |
| Text.Trim | src/components/screens/AIAssistantScreen.tsx:40 | the trimmed text is the input with a whitespace prefix and a whitespace suffix cut off, and it neither starts nor ends with whitespace |
| Text.BlankIffAllWhitespace | src/components/screens/AIAssistantScreen.tsx:40 | a text trims to empty exactly when every character is whitespace |
| Text.TrimIdempotent | src/components/screens/ResidentsChat.tsx:102 | trimming twice is trimming once |
| Text.LowerChar | src/components/screens/AIAssistantScreen.tsx:64 | Latin and Cyrillic capitals map to their lower-case letters; every other character is unchanged |
| Text.Lower | src/components/screens/ResidentsChat.tsx:109 | lower-casing keeps the length and maps each character on its own |
| Text.LowerCharIsLower | src/components/screens/ResidentsChat.tsx:109 | a lower-cased character is not a capital |
| Text.LowerOfLower | src/components/screens/ResidentsChat.tsx:109 | a text without capitals is its own lower-case form |
| Text.LowerIdempotent | src/components/screens/ResidentsChat.tsx:109 | lower-casing twice is lower-casing once |
| Text.ContainsEmpty | src/components/screens/ResidentsChat.tsx:109 | every text contains the empty string |
| Text.MissingCharExcludes | src/components/screens/AIAssistantScreen.tsx:66-78 | a text lacking some character of a keyword does not contain that keyword |
| Sequences.Filter | src/components/screens/ResidentsChat.tsx:108 | the result is no longer than the input, every element passes, it is an order-preserving subsequence, an element is in it exactly when it is in the input and passes, and each element occurs as often as in the input if it passes and not at all otherwise |
| Sequences.FilterFullIffAllPass | src/pages/Index.tsx:190 | the filter keeps its whole input exactly when every element passes |
| Sequences.FilterAllPass | src/components/screens/ResidentsChat.tsx:108 | when every element passes, the filter returns its input |
| Sequences.FilterCons | src/pages/Index.tsx:190 | a leading element is kept in front exactly when it passes |
| Sequences.FilterSamePredicate | src/components/screens/ResidentsChat.tsx:108 | predicates that agree on every element filter alike |

## Left out

- Rendering, styling and animation. A toast is an outcome tag, and its text is not modelled.
- Timers and asynchronous delivery. The assistant's reply arrives after a one-second delay and the voice input sends its phrase after two seconds (src/components/screens/AIAssistantScreen.tsx:52-60, 89-92). The model classifies the reply as an immediate function of the question. The voice callback also fires when the microphone was pressed again to stop recording. It calls the `handleSend` of the render in which recording started, which rebuilds the log from that render's messages (line 49). A bot reply delivered within those two seconds (line 59) is then overwritten and lost. This race is left out with the timers.
- Clocks and randomness. `Date.now()` ids and ISO dates are parameters of the creation and send handlers. The leak reply embeds `Math.random()`, so the model returns the reply's topic, not its text.
- Startup and persistence. Reading `hasSeenOnboarding` and `userData` from `localStorage`, choosing between onboarding, sign-in and the shell, and logout. The file holding them is not part of this model.
- Presentational screens: services, cameras, news, apartment, payments, profile and voting. They are static data with trivial state. `LanguageSwitcher` reads the language through `useLanguage` from `@/context/LanguageContext`, which is not part of this model.
- Locale formatting (`Intl.DateTimeFormat`) and the floating-point progress and analytics bars.
- Chat and assistant message timestamps, avatars and "online" markers. The chat's optional `unread` count is a natural number, with 0 for a missing count.
- The requests screen's "add photo" button has no handler, so photos can never be attached. The form's location field is editable but is not copied into the request.
- The dashboard page's form edits, tabs and dialog are not modelled as events. Only its creation handler and the "open requests" figure are modelled.
- Text.LowerChar: maps only ASCII A–Z and the Cyrillic capitals U+0400–U+042F, which covers every keyword, chat name and sample string here. The rest of JavaScript's Unicode case mapping is not modelled.
- Auth.HandlePhoneSubmit: counts the phone's length in code points, while JavaScript counts UTF-16 units. They agree on the digits, spaces and punctuation a phone number is made of.
- Auth.HandleCodeSubmit: counts the code's length in code points, not UTF-16 units, for the same reason.
- Auth.ClipCode: cuts the code at four code points, not four UTF-16 units, for the same reason.
- Auth.Handle: treats an event for a control that is not rendered on the current step as a no-op, because the screen cannot deliver it.
