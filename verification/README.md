# Portfolio desktop and RAG backend — a Dafny model

This project models the logic at the core of a macOS-style portfolio site and its question-answering backend.

The front end covers:

- the window manager hook: which windows are open, in what order, and which one has focus;
- the window frame, with its traffic lights and title-bar controls;
- the desktop shell, with its two search bars and the windows it renders;
- the phone layout, with its home screen and app view;
- the menu bar's dropdowns;
- the project filter and chip rows;
- the scripted chat widget;
- the contact form;
- the skill-colour lookup.

The back end covers:

- the MongoDB session repository: session lookup or creation, history pairing and message listing;
- the PDF question-answering service: the context format, source list, indexed files, build errors and retriever cache;
- the older RAG chatbot class: its constructor, the history text it feeds the model, `ask_question` and the knowledge-base rebuild.

Every operation is a pure function over immutable datatypes. The one exception is the history pairing loop, which is a method with a loop invariant.

React state updates, timers and DOM events are modelled as events applied one after another. Anything outside the code is a parameter:

- the clock;
- `Math.random`;
- the vector store and retriever;
- the language model;
- the PDF loader;
- the ObjectId parser;
- newly inserted ids;
- the file system's answers.

Modules (one per file):

| module | models |
|---|---|
| `Wrappers` | `Option` and `Result` |
| `Text` | JavaScript `trim`, ASCII `toLowerCase`, `includes` and `endsWith`; Python `str.join`, `str.capitalize` and `s[:n]` |
| `WindowManager` | `frontend/hooks/useWindowManager.ts` |
| `WindowChrome` | `frontend/components/common/Window.tsx` |
| `Desktop` | `frontend/components/layout/Desktop.tsx`, and how a window's callbacks reach the manager |
| `MobileLayout` | `frontend/components/layout/MobileLayout.tsx` |
| `MenuBar` | `frontend/components/layout/MenuBar.tsx` |
| `Projects` | `frontend/apps/projects/ProjectsWindow.tsx` |
| `Chat` | `frontend/apps/chat/ChatWindow.tsx` |
| `Contact` | `frontend/apps/contact/ContactWindow.tsx` |
| `Colors` | `frontend/utils/colors.ts` |
| `MongoRepo` | `backend/app/db/mongo_repo.py` |
| `MlService` | `backend/app/ml_service.py` |
| `RagChatbot` | `backend/app/rag_chatbot.py` |

A minimise control only sets the frame's local `isMinimized` flag; the window stays in the manager's open list; `Desktop.MinimizeLeavesWindowOpen` states the consequence.

Three places where the code does not do what it evidently means to are logged under "## Findings". Each has an as-written member and a corrected one.

## Model

| member | source | states |
|---|---|---|
| WindowManager.Open | frontend/hooks/useWindowManager.ts:9-16 | opening always focuses the window; it is appended only when missing, and nothing else is removed or reordered; a duplicate-free list yields a valid manager (no duplicates, focus on an open window) |
| WindowManager.Close | frontend/hooks/useWindowManager.ts:18-24 | the window is gone and every other window stays; focus is untouched unless the closed window had it, in which case it passes to the last remaining window, or to none when nothing is left; validity is preserved |
| WindowManager.Focus | frontend/hooks/useWindowManager.ts:26-28 | focus is set without consulting the open list, so focusing a window that is not open breaks the focus-on-open-window invariant |
| WindowManager.Toggle | frontend/hooks/useWindowManager.ts:30-36 | an open window ends closed; a closed one ends open and focused; validity is preserved |
| WindowManager.FocusIfOpen | frontend/hooks/useWindowManager.ts:26-28 | corrected focus: focuses an open window and ignores any other id, so validity is preserved |
| WindowManager.OpenIdempotent | frontend/hooks/useWindowManager.ts:9-16 | opening twice is opening once; opening an open window is just focusing it |
| WindowManager.CloseIdempotent | frontend/hooks/useWindowManager.ts:18-24 | closing twice is closing once |
| WindowManager.OpenThenCloseRestoresOpen | frontend/hooks/useWindowManager.ts:9-24 | opening a new window and closing it restores the open list, with focus on the last window that was open before |
| WindowManager.ToggleTwiceRestoresOpen | frontend/hooks/useWindowManager.ts:30-36 | toggling a closed window twice restores the open list |
| WindowManager.ToggleIsDispatch | frontend/hooks/useWindowManager.ts:30-36 | toggle is close on an open window and open on any other |
| WindowManager.RunKeepsNoDuplicates | frontend/hooks/useWindowManager.ts:6-36 | no sequence of open/close/focus/toggle calls ever lists a window twice |
| WindowManager.RunKeepsValid | frontend/hooks/useWindowManager.ts:6-36 | when every focus call names an open window, any sequence of calls keeps focus on an open window |
| WindowManager.ReachableInvariants | frontend/hooks/useWindowManager.ts:6-7 | from the initial empty state, every reachable open list is duplicate-free, and focus is valid under the same focus condition |
| WindowManager.CloseThenFocusBreaksFocusInvariant | frontend/hooks/useWindowManager.ts:18-28 | closing a window and then focusing it leaves focus on a window that is not open |
| WindowChrome.ToggleFullscreen | frontend/components/common/Window.tsx:40-42 | the fullscreen flag flips and the minimised flag is kept |
| WindowChrome.Click | frontend/components/common/Window.tsx:38-121 | close is fired exactly by a rendered close control; focus is fired exactly by a rendered desktop target, since the frame's own click handler sees every bubbled click; a desktop close control fires close then focus; a minimised frame renders nothing and ignores clicks; the frame becomes minimised exactly through a rendered minimise control; the mobile frame never changes fullscreen |
| WindowChrome.MinimizedIsAbsorbing | frontend/components/common/Window.tsx:38 | once minimised, no sequence of clicks changes the frame again |
| WindowChrome.MobileNeverFullscreen | frontend/components/common/Window.tsx:45-70 | on the phone frame the fullscreen flag never changes, so fullscreen cannot be reached from the initial state |
| WindowChrome.FullscreenToggleInvolution | frontend/components/common/Window.tsx:40-42 | two fullscreen toggles give back the same frame |
| Desktop.SearchClick | frontend/components/layout/Desktop.tsx:37-45 | with chat closed, chat is appended and focused once the timer fires, and the animation flag ends false; with chat open nothing changes; no window is closed, the query is kept, and validity is preserved |
| Desktop.SearchSubmit | frontend/components/layout/Desktop.tsx:47-52 | submitting the central search form (the only bar that is a form) with a blank query (by `trim`) changes nothing; any other query acts as a search-bar click |
| Desktop.WhitespaceSubmitDoesNothing | frontend/components/layout/Desktop.tsx:47-52 | a query made only of JavaScript whitespace, including the empty one, is ignored |
| Desktop.SearchBarsExclusive | frontend/components/layout/Desktop.tsx:57-103 | the central and the compact search bar are never both shown, and one of them is shown exactly when chat is not open |
| Desktop.Render | frontend/components/layout/Desktop.tsx:130-148 | one window per open id, in list order; each window's callbacks carry its own id; it is marked focused exactly when it is the focused window, and animating exactly when it is chat during the search animation |
| Desktop.RenderFocusMarks | frontend/components/layout/Desktop.tsx:130-148 | with distinct ids at most one window carries the focus ring, and one does exactly when focus is on an open window; only chat can animate from the search bar |
| Desktop.FocusRingFollowsFocus | frontend/components/common/Window.tsx:81-82 | a shown desktop frame wears the focus ring exactly when its window is the focused one; the phone frame never does |
| Desktop.Dispatch | frontend/components/layout/Desktop.tsx:139-140 | corrected dispatch of a window's fired callbacks: validity is preserved, no window is added, and a closed window stays closed |
| Desktop.CloseControlFocusesClosedWindow | frontend/components/common/Window.tsx:84-92 | as written, clicking a desktop window's close control removes it from the open list but leaves focus on it |
| Desktop.MinimizeLeavesWindowOpen | frontend/components/common/Window.tsx:84-96 | a minimise click hides the frame but the manager still lists the window; on the desktop the bubbled click also focuses it; on the phone the manager is untouched |
| Desktop.CloseControlKeepsFocusInvariant | frontend/components/common/Window.tsx:84-92 | with the corrected dispatch the close control removes the window and focus stays on an open window |
| MobileLayout.AppOpen | frontend/components/layout/MobileLayout.tsx:62-66 | the app is open and focused, the app view is shown with the menu hidden, earlier windows stay, and the app is the active window |
| MobileLayout.CloseEach | frontend/components/layout/MobileLayout.tsx:71 | closing each listed id in turn leaves exactly the windows not listed, and keeps validity |
| MobileLayout.BackToHome | frontend/components/layout/MobileLayout.tsx:68-72 | corrected back-to-home: the home view, no window open, no focus, no app view |
| MobileLayout.BackToHomeBatchedLeavesWindowsOpen | frontend/components/layout/MobileLayout.tsx:68-72 | as written, with two or more windows open, every window but the last survives, and the view effect switches back to the app view |
| MobileLayout.BackToHomeStaysHome | frontend/components/layout/MobileLayout.tsx:68-88 | with the closes applied in sequence, the view effect leaves the phone on the home screen |
| MobileLayout.SearchSubmit | frontend/components/layout/MobileLayout.tsx:74-79 | a blank query changes nothing; any other opens chat in the app view |
| MobileLayout.SyncView | frontend/components/layout/MobileLayout.tsx:82-88 | the view becomes the app view exactly when some window is open, and nothing else changes |
| MobileLayout.ActiveWindow | frontend/components/layout/MobileLayout.tsx:92 | the focused id when it is non-empty, otherwise the last open window; an open window whenever focus is on an open window |
| MenuBar.MenuClick | frontend/components/layout/MenuBar.tsx:120-122 | clicking the active menu closes it; clicking any other menu makes that menu the only active one |
| MenuBar.MenuClickToggles | frontend/components/layout/MenuBar.tsx:120-122 | clicking a menu twice closes it; clicking another menu switches to it |
| MenuBar.EntryClick | frontend/components/layout/MenuBar.tsx:124-129 | an item runs its action, if it has one, and closes the dropdown; a separator is inert |
| MenuBar.MouseDown | frontend/components/layout/MenuBar.tsx:17-22 | a press outside the menu area closes any dropdown; a press inside leaves it |
| MenuBar.RenderEntry | frontend/components/layout/MenuBar.tsx:148-160 | a separator renders as a divider; an item as a button with its label, and with its shortcut label exactly when the shortcut is present and not empty |
| MenuBar.OpenDropdowns | frontend/components/layout/MenuBar.tsx:136-146 | a menu's dropdown is shown exactly when it is the active menu |
| MenuBar.AtMostOneDropdown | frontend/components/layout/MenuBar.tsx:136-146 | with distinct menu ids at most one dropdown is open, and one is open exactly when a declared menu is active |
| MenuBar.ItemClickClosesDropdowns | frontend/components/layout/MenuBar.tsx:124-146 | after a click on any item no dropdown of the bar is shown |
| MenuBar.OutsidePressClosesDropdowns | frontend/components/layout/MenuBar.tsx:17-22 | after a press outside the menu area no dropdown is shown; a press inside leaves every dropdown as it was |
| MenuBar.DividerIsInert | frontend/components/layout/MenuBar.tsx:124-160 | an entry drawn as a divider keeps the open menu and runs nothing when clicked; one drawn as a button closes the menu and runs its action exactly when it has one |
| MenuBar.DeclaredMenusDistinct | frontend/components/layout/MenuBar.tsx:41-118 | the five declared menus have distinct ids |
| Projects.FilterProjects | frontend/apps/projects/ProjectsWindow.tsx:37-52 | a project is listed exactly when it is in the catalogue and matches both the search and the category; the list is never longer |
| Projects.FilterDistributes | frontend/apps/projects/ProjectsWindow.tsx:37-52 | filtering a concatenation is concatenating the filtered parts, so catalogue order is kept |
| Projects.EmptyTermMatchesAll | frontend/apps/projects/ProjectsWindow.tsx:38-41 | the empty search term matches every project |
| Projects.EmptySearchShowsAll | frontend/apps/projects/ProjectsWindow.tsx:37-52 | an empty search under the "all" category shows the whole catalogue in order |
| Projects.SearchIgnoresTermCase | frontend/apps/projects/ProjectsWindow.tsx:38-41 | a term and its lower-cased form match the same projects |
| Projects.FeaturedCategoryIsFeatured | frontend/apps/projects/ProjectsWindow.tsx:43-45 | the featured category lists exactly the featured projects that match the search |
| Projects.AddedTechnologyCategory | frontend/apps/projects/ProjectsWindow.tsx:46-49 | a technology added to a project makes it web or mobile when its name is exactly one of that category's names, and otherwise leaves the category unchanged |
| Projects.CategoryMatchIsExact | frontend/apps/projects/ProjectsWindow.tsx:46-49 | category membership compares technology names exactly: "React Native" is mobile but not web, though it includes "React" ignoring case |
| Projects.CountFeatured | frontend/apps/projects/ProjectsWindow.tsx:324 | at most the list's length, and zero exactly when no listed project is featured |
| Projects.Counts | frontend/apps/projects/ProjectsWindow.tsx:320-324 | the featured count never exceeds the listed count, which never exceeds the catalogue; under the featured category the two counts agree |
| Projects.FeaturedFilterAllFeatured | frontend/apps/projects/ProjectsWindow.tsx:324 | every project the featured category lists is counted as featured |
| Projects.Chips | frontend/apps/projects/ProjectsWindow.tsx:87-96 | the chips are a prefix of the technologies of at most the limit; the "+n" badge appears exactly when some are hidden, and shown plus hidden is the total |
| Chat.InitialChat | frontend/apps/chat/ChatWindow.tsx:12-24 | the widget opens with the greeting alone, the box pre-filled with the search query, and nothing pending |
| Chat.ContentToSend | frontend/apps/chat/ChatWindow.tsx:44 | the explicit message unless it is absent or empty, otherwise the input box |
| Chat.Send | frontend/apps/chat/ChatWindow.tsx:43-56 | blank content (by `trim`) sends nothing; otherwise exactly one user message with the untrimmed content is appended, the box is cleared and thinking starts |
| Chat.StartTyping | frontend/apps/chat/ChatWindow.tsx:59-62 | thinking ends and typing starts; the transcript and box are untouched |
| Chat.ReplyIndex | frontend/apps/chat/ChatWindow.tsx:80 | the floor of draw times six: always a valid index into the six replies |
| Chat.Reply | frontend/apps/chat/ChatWindow.tsx:65-91 | exactly one assistant message, one of the canned replies, is appended; typing ends and everything else is kept |
| Chat.KeyPress | frontend/apps/chat/ChatWindow.tsx:94-99 | Enter without Shift sends the box; any other key does nothing |
| Chat.AutoSend | frontend/apps/chat/ChatWindow.tsx:35-41 | a non-blank initial message is sent on its own; a blank one does nothing |
| Chat.SecondEnterSendsNothing | frontend/apps/chat/ChatWindow.tsx:94-99 | pressing Enter right after a send sends nothing more |
| Chat.SuggestionSendsQuestion | frontend/apps/chat/ChatWindow.tsx:256-265 | a suggested question clicked on the fresh widget is appended as written |
| Chat.SendClosesControls | frontend/apps/chat/ChatWindow.tsx:308 | a successful send disables the send button and hides the suggestions |
| Chat.SuggestionsGoneAfterFirstQuestion | frontend/apps/chat/ChatWindow.tsx:256 | once a question is in the transcript, no later event brings the suggestions back |
| Chat.StepAppendsOnly | frontend/apps/chat/ChatWindow.tsx:43-99 | any single event only appends to the transcript and keeps it well formed |
| Chat.RunAppendsOnly | frontend/apps/chat/ChatWindow.tsx:43-99 | over any run of events the transcript is append-only and well formed |
| Chat.ReachableTranscripts | frontend/apps/chat/ChatWindow.tsx:13-21 | every transcript reachable from mount starts with the greeting; every user message is non-blank; every later assistant message is a canned reply |
| Chat.EnterSendsWhileReplyPending | frontend/apps/chat/ChatWindow.tsx:94-99 | Enter sends while a reply is pending, even though the send button is disabled then |
| Contact.InputChange | frontend/apps/contact/ContactWindow.tsx:21-26 | the named field takes the new value; every other field, the submitting flag and the status are kept |
| Contact.InputChangeLaws | frontend/apps/contact/ContactWindow.tsx:21-26 | writing a field's own value changes nothing; of two writes to one field the last wins |
| Contact.Submit | frontend/apps/contact/ContactWindow.tsx:28-30 | submitting starts with the form and status unchanged (it is reached only through the browser's validation, see `Contact.SubmitGuard`) |
| Contact.Complete | frontend/apps/contact/ContactWindow.tsx:33-37 | submitting ends with success and every field cleared |
| Contact.ResetStatus | frontend/apps/contact/ContactWindow.tsx:38-40 | the status returns to idle and nothing else changes |
| Contact.NeverError | frontend/apps/contact/ContactWindow.tsx:19-41 | no sequence of events ever sets the error status |
| Contact.ReachableStatus | frontend/apps/contact/ContactWindow.tsx:12-41 | from the initial form only the idle and success statuses are reachable |
| Contact.SubmitGuard | frontend/apps/contact/ContactWindow.tsx:108-153 | a submit attempt with an empty required field, an email the browser rejects, or while already submitting changes nothing, so the fresh form cannot be submitted; an attempt that fires, followed by both timers, returns to the fresh form |
| Contact.SubmitCycle | frontend/apps/contact/ContactWindow.tsx:28-40 | a full submit cycle returns the form to its initial state; the button is disabled while submitting and the success banner shows after it |
| Colors.GetColorClasses | frontend/utils/colors.ts:40-42 | a known colour gets its own scheme and any other name gets gray's; the four classes carry the bg/text/border/bg prefixes |
| Colors.TableFollowsNamingRule | frontend/utils/colors.ts:1-38 | the table declares exactly the six colours, each following the shade naming rule (100/800/200/500) |
| Colors.LookupIsTotalAndInjective | frontend/utils/colors.ts:40-42 | every name gets one of the six schemes, and distinct known colours get distinct schemes |
| MongoRepo.ValidObjectIdShape | backend/app/db/mongo_repo.py:34-41 | only a 24-character string is a valid id; under the hex parser, exactly the 24-character hex strings are |
| MongoRepo.GetOrCreateSession | backend/app/db/mongo_repo.py:44-78 | no id or an empty id creates a new session; a canonical id returns itself when stored and fails with "not found" otherwise, which is the only error; any other string finds or creates the session of that external key |
| MongoRepo.GetOrCreateKeepsStoreValid | backend/app/db/mongo_repo.py:25-78 | the store keeps every external key pointing at one session that records that key; the returned id is a stored session; existing sessions are never altered |
| MongoRepo.SameKeySameSession | backend/app/db/mongo_repo.py:64-78 | asking twice with the same external key returns the same session; the second call changes nothing and keeps the creation time |
| MongoRepo.MissingIdAlwaysCreates | backend/app/db/mongo_repo.py:49-54 | an empty id creates a new session, with the driver's new id, every time |
| MongoRepo.FetchHistoryPairs | backend/app/db/mongo_repo.py:103-116 | of the first 2000 messages, the user/assistant pairs; the last `limit` of them for a positive limit, but all of them for a zero limit |
| MongoRepo.LastPairs | backend/app/db/mongo_repo.py:116 | the last `n` pairs, as a suffix of the list |
| MongoRepo.HistoryPairs | backend/app/db/mongo_repo.py:103-116 | corrected: at most `limit` pairs, none for a non-positive limit, always a suffix of the pairing, and the whole pairing when it fits |
| MongoRepo.ZeroLimitReturnsEverything | backend/app/db/mongo_repo.py:116 | with limit 0 the code returns the one stored pair, where the intended result is none |
| MongoRepo.PairingRules | backend/app/db/mongo_repo.py:110-115 | a user message replaces any pending one; an assistant message with nothing pending is dropped; one after a pending user message closes a pair and clears it |
| MongoRepo.PairsOfTranscript | backend/app/db/mongo_repo.py:108-115 | pairing a transcript of alternating user/assistant messages gives back its pairs |
| MongoRepo.OtherRolesIgnored | backend/app/db/mongo_repo.py:110-115 | messages with any other role do not affect the pairing |
| MongoRepo.PairsBounded | backend/app/db/mongo_repo.py:110-115 | there are never more pairs than assistant messages, nor more than user messages (plus a pending one) |
| MongoRepo.PairsComeFromMessages | backend/app/db/mongo_repo.py:110-115 | every pair's question is a stored user message and its answer a stored assistant message |
| MongoRepo.GetSessionMessages | backend/app/db/mongo_repo.py:134-151 | anything but a canonical id is rejected; otherwise the session's messages in order, or none |
| MongoRepo.ExternalKeyListingRejected | backend/app/db/mongo_repo.py:134-140 | an external key that the session lookup accepts is rejected by the message listing |
| MlService.SourceLabel | backend/app/ml_service.py:206 | the file name if truthy, else the source if truthy, else "unknown"; never empty |
| MlService.FormatPart | backend/app/ml_service.py:207 | a part starts with "[SOURCE: ", carries the label, and ends with the chunk text |
| MlService.FormatDocsShape | backend/app/ml_service.py:203-208 | no documents give an empty context; each further document adds a blank line and its part at the end |
| MlService.FormatDocsLength | backend/app/ml_service.py:203-208 | the context is every part plus two newline characters between neighbours |
| MlService.SourceList | backend/app/ml_service.py:253-261 | one entry per retrieved document, in order, with its raw metadata and a snippet that is the first 500 characters of its text |
| MlService.ShortContentIsWholeSnippet | backend/app/ml_service.py:259 | a text of at most 500 characters is its own snippet |
| MlService.PdfFilterIgnoresCase | backend/app/ml_service.py:152 | the file filter ignores case: ".pdf" and ".PDF" are both indexed |
| MlService.AllChunks | backend/app/ml_service.py:150-158 | the index is empty exactly when every PDF-named file loads no chunk |
| MlService.NonPdfFilesIgnored | backend/app/ml_service.py:150-158 | a file without a PDF name, anywhere in the walk, contributes nothing |
| MlService.EnsureRetriever | backend/app/ml_service.py:183-197 | afterwards the store is open and the retriever uses the requested `k` |
| MlService.Reload | backend/app/ml_service.py:265-267 | both cached handles are dropped |
| MlService.RetrieverFollowsLastK | backend/app/ml_service.py:183-197 | the last call decides `k`; a reload leaves nothing cached |
| MlService.Build | backend/app/ml_service.py:139-173 | a missing folder fails with nothing changed; no content fails; otherwise every chunk is indexed and the caches are dropped; with the folder present, a reset drops them even when the build fails |
| MlService.Rebuild | backend/app/ml_service.py:175-178 | the caches end empty on every outcome, errors included, and the result is that of a build with reset |
| MlService.Chat | backend/app/ml_service.py:227-263 | the retriever ends on the requested `k`; the answer is the model's on the formatted context; one source entry per retrieved document |
| RagChatbot.NewBot | backend/app/rag_chatbot.py:32-56 | a missing or empty key fails; otherwise the store is loaded exactly when its path exists and opening succeeds |
| RagChatbot.FormatDocsGrows | backend/app/rag_chatbot.py:129-130 | the contents joined by blank lines, in order, with two newline characters between neighbours |
| RagChatbot.Render | backend/app/rag_chatbot.py:151 | a missing key gives the default, a stored `None` renders as "None", and text renders as itself |
| RagChatbot.HistoryLine | backend/app/rag_chatbot.py:151 | formatting fails exactly for a `None` role; otherwise "Role (timestamp): message" with the role capitalised, "User" by default |
| RagChatbot.HistoryLines | backend/app/rag_chatbot.py:150-153 | one line per logged entry, in order, failing exactly when some role is `None` |
| RagChatbot.ChatContext | backend/app/rag_chatbot.py:150-161 | an empty history gives the empty context; otherwise the lines joined by newlines, or the role error |
| RagChatbot.ChatContextSnoc | backend/app/rag_chatbot.py:150-153 | one more entry adds one newline and its line at the end |
| RagChatbot.SessionHistory | backend/app/rag_chatbot.py:146-149 | exactly the log entries of the session, in order |
| RagChatbot.SessionHistoryAppend | backend/app/rag_chatbot.py:146-149 | the history of an extended log is the old history followed by the new entries of the session |
| RagChatbot.AskQuestion | backend/app/rag_chatbot.py:136-231 | no store and no path fails with nothing logged; an answer needs a loaded store; once the store is loaded or opened, a history that cannot be formatted fails before logging; on success the user's question and the bot's answer are logged in that order, and the reply echoes the session and the bot's timestamp; the answer is the model's on the retrieved context, the history read before logging, and the question |
| RagChatbot.AskQuestionSucceeds | backend/app/rag_chatbot.py:193-231 | with a loaded or openable store and a formattable history, the question succeeds exactly when the model's answer, sources and reasoning are all non-empty, and the reply carries them unchanged with the session id and the bot's timestamp; otherwise it fails with the empty-field error after logging only the question |
| RagChatbot.StoreOpenFailureLogsNothing | backend/app/rag_chatbot.py:136-141 | when the store is not loaded and opening the existing directory fails, the question fails with nothing logged and the bot still unloaded |
| RagChatbot.NewBotStoreErrors | backend/app/rag_chatbot.py:52-56 | a bot built with a key and an openable store never meets a store error when asked; one built without a store directory, asked while there is still none, fails with the missing-store error and logs nothing |
| RagChatbot.ExchangeJoinsHistory | backend/app/rag_chatbot.py:145-223 | after a successful question the session's history has grown by the user's entry then the bot's, and every other session's history is unchanged |
| RagChatbot.EmptyAnswerLeavesQuestionLogged | backend/app/rag_chatbot.py:193-209 | a model answer with an empty answer field fails after the question is logged, leaving a user line with no bot line |
| RagChatbot.ExchangeLines | backend/app/rag_chatbot.py:194-222 | the logged exchange reads back as "User (t): question" and "Bot (t'): answer" |
| RagChatbot.PdfsIn | backend/app/rag_chatbot.py:122 | exactly the folder's names that `*.pdf` matches |
| RagChatbot.RebuildKnowledgeBase | backend/app/rag_chatbot.py:119-125 | no matching PDF fails with nothing changed; otherwise the store is rebuilt and the summary counts every matching file and all their chunks |
| RagChatbot.GlobImpliesPdfName | backend/app/rag_chatbot.py:122 | every file the rebuild picks up is one the PDF service's folder build also indexes |
| RagChatbot.RebuildIsCaseSensitive | backend/app/rag_chatbot.py:122 | unlike the service's filter, the rebuild skips "notes.PDF" and hidden ".notes.pdf" |
| Text.BlankIffAllWhitespace | frontend/components/layout/Desktop.tsx:49 | a string is falsy after `trim` exactly when all its characters are JavaScript whitespace |
| Text.ContainsIffOccurs | frontend/apps/projects/ProjectsWindow.tsx:39 | `includes` holds exactly when the needle occurs at some index |

## Left out

- React state batching is modelled as sequential state updates, except in `MobileLayout.BackToHomeBatched`, where the stale snapshot is the point. The modelled outcomes are those that batching also produces.
- Timers (`setTimeout`), animations and the search-bar-to-window animation geometry are left out. A timer's callback is an event; `calculateSearchBarAnimation` and CSS classes are not modelled.
- Desktop.SearchClick: the 200 ms timer's callback is applied to the state current when it fires. In the source, the callback's `onOpenWindow("chat")` uses the open-window list captured at the click, so a window opened from the dock during the animation may be dropped when chat opens; that loss is not modelled.
- The responsive breakpoint (`isMobile`, `useResponsive`) and window resizing are left out. The layout is a parameter.
- The mobile frame's green button has no handler, so it is modelled as inert.
- Chat.ReplyIndex: `Math.random()` is a rational draw `num/den` in [0, 1). Floating-point rounding of `random * 6` is not modelled.
- Chat.Reply: the `Date.now()` stamps and the message ids built from them are integers supplied by the caller. Id collisions are not modelled.
- Contact.Submittable: the browser's email syntax check, including its trimming of the value, is the parameter `emailOk`. The browser's validation messages are not modelled.
- Projects.IncludesIgnoringCase: `toLowerCase` is ASCII-only, so Unicode case mapping is not modelled. The same holds for `MlService.IsPdfName` and `RagChatbot.HistoryLine`'s `capitalize`.
- The project catalogue, the skills and the other constants are not restated. Filters and lemmas hold for every catalogue.
- Dock, page-level dispatch, `MobileWindow`, the About, Skills and Resume windows, the notification centre, `useTime` and the presentation-only components are plumbing or markup, so they are not modelled.
- MenuBar: the clock and the notification button are left out. Each item's action is opaque and modelled as whether one exists (`hasAction`).
- Colors.GetColorClasses: a lookup by an inherited object key such as "constructor" is not modelled. Any name outside the six colours falls back to gray.
- MongoRepo.IsValidObjectId: `ObjectId(val)` is a parameter. `HexParse` is a reference parser that does not reproduce quirks of the driver's parser.
- MongoRepo: the database driver, `init_mongo`, `ensure_indexes`, `save_message` and `list_sessions` are I/O or listing plumbing and are left out. The unique partial index is modelled as the store invariant `ValidStore`.
- MongoRepo.FetchHistoryPairs: the sort by `created_at` is assumed to equal insertion order. A negative limit follows Python slicing, which the intended behaviour does not use.
- RagChatbot.SessionHistory: the sort by `timestamp` is assumed to equal log order.
- RagChatbot.AskQuestion: the model's `sources` and `reasoning` are kept only as opaque strings and are not written to the modelled log. Non-string field values other than `None` are not modelled.
- RagChatbot.AskQuestion: why opening the store fails is not modelled. Whether it fails is the parameter `openSucceeds`, and the failure is modelled as the error `StoreOpenFailed` rather than an exception.
- RagChatbot: the PDF loader, text splitter, embeddings, Chroma and the thread-pool executor are parameters or left out. `prepare_knowledge_base` is modelled only in the `append=False` mode that the rebuild uses.
- MlService: `_safe_clear_persist_dir`'s file deletion is left out; its effect on the caches is modelled. `normalize_abstract_header` (a regex rewrite no other code calls) is left out. Chunk `doc_id` assignment with `uuid5` is left out.
- MlService.Chat: only the unstructured path (`structured=False`) is modelled, with the model's reply as a string. The prompt template's text is left out.
- `ml_logic.py`, `main.py`, the settings, the config and the pydantic schemas are wiring or an alternative pipeline outside this model.

## Findings

| source | as written | input that shows it | evidently intended | confidence | as-written member | corrected member |
|---|---|---|---|---|---|---|
| frontend/components/common/Window.tsx:84-92 | the close button's click runs `onClose` and then bubbles to the frame's `onClick={onFocus}`, and `focusWindow` sets focus without checking the open list | desktop, open ["about", "projects"], focus "projects", click the red light of "projects" | the window closes and focus passes to "about" | medium, not executed | Desktop.CloseControlFocusesClosedWindow | Desktop.CloseControlKeepsFocusInvariant |
| frontend/components/layout/MobileLayout.tsx:68-72 | `openWindows.forEach(onCloseWindow)` calls `closeWindow` repeatedly against the same render's `openWindows`, so only the last filter survives | phone, open ["about", "projects"], press back | every window closes and the home screen stays | medium, not executed | MobileLayout.BackToHomeBatchedLeavesWindowsOpen | MobileLayout.BackToHomeStaysHome |
| backend/app/db/mongo_repo.py:116 | `pairs[-limit_pairs:]` with `limit_pairs == 0` is `pairs[0:]`, the whole list | stored messages user "hi", assistant "hello", limit 0 | no pairs for a zero limit | high, not executed | MongoRepo.ZeroLimitReturnsEverything | MongoRepo.HistoryPairs |
