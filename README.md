# CULTX reading companion — a Dafny model

CULTX is a reading app about Mexican culture. A reader opens articles, asks an AI companion about them, quotes passages into the chat, and keeps a profile that personalises the feed. The "AI" is deterministic: answers are picked from fixed tables by string length and message count. This project models the logic behind that experience in Dafny and proves what it promises:

- the two responders: `getChatResponse` and `getContextualResponse`;
- the personalised feed and the article queries;
- the profile and sign-in state kept in one storage slot;
- the chat message store and its persisted copy;
- the component logic around them: the "ejes" questions under an article, the global chat bar with its guest limit, the chat side panel with its link renderer and send handler, "send to chat" from a selection, paragraph splitting, the companion onboarding modal, profile editing, avatar initials, and the article toolbar (clock, progress bar, summary and its download text).

Modules follow the source files:

- Functions model the pure code.
- Classes model state that the source changes in place: the storage slot (`Storage.LocalStorage`), the chat store (`ChatStore.Store`) and each component's own state.
- Several handlers wait on a timer before the assistant answers: `handleEjeClick`, both `handleSend`s and `handleSummary`. Each is split into a `Begin…` and a `Finish…` step. The `pending` field keeps the values the handler captured before the pause.
- The response tables live in consts (`ChatResponder.SourceTables`). Most lemmas are stated over any table of the right shape.

## Model

| member | source | states |
|---|---|---|
| ChatResponder.SelectionIndex | src/ai/chatResponder.ts:83-84 | the index is `(len(userMessage) + messageCount) % 9` and lies inside the pool |
| ChatResponder.SelectionAdvances | src/ai/chatResponder.ts:83-84 | one more message moves the index one slot on, modulo 9 |
| ChatResponder.ContextTemplate | src/ai/chatResponder.ts:91 | the contextual answer starts "On «" and quotes the title in guillemets |
| ChatResponder.BaseBySlot | src/ai/chatResponder.ts:88-98 | slots 0–7 give `RESPONSE_POOL[index]`; slot 8 gives the «title» template with a truthy context and `RESPONSE_POOL[0]` with null or "" |
| ChatResponder.ResponseNonEmpty | src/ai/chatResponder.ts:28-55 | the empty placeholder `RESPONSE_POOL[8]` is never the base, so the answer is never empty |
| ChatResponder.BaseResponse | src/ai/chatResponder.ts:88-98 | slot 8, or the last slot with a truthy context, quotes the context in guillemets; without a context the base is a pool entry; any other slot gives its own entry |
| ChatResponder.ProfileSuffix | src/ai/chatResponder.ts:102-113 | an academic-tier profile gets one of the academic appendages, a student the follow-up, anyone else nothing |
| ChatResponder.Respond | src/ai/chatResponder.ts:79-116 | the answer starts with the base and what follows is exactly the profile suffix (appended, never replacing) |
| ChatResponder.SuffixByTier | src/ai/chatResponder.ts:102-113 | academic tier gets `ACADEMIC_APPENDAGES[(len+count) % 4]`, Student the fixed follow-up, anyone else nothing (both directions) |
| ChatResponder.ContextSlotQuotesTitle | src/ai/chatResponder.ts:88-92 | in slot 8 with a truthy context the answer contains «context» |
| ChatResponder.ContextIgnoredOutsideSlot8 | src/ai/chatResponder.ts:96-98 | outside slot 8 the article context does not change the answer |
| ChatResponder.ResponseDependsOnTotalLength | src/ai/chatResponder.ts:79-116 | inputs with the same length+count, context and profile get the same answer (no hidden state) |
| ChatResponder.ResponsePoolShape | src/ai/chatResponder.ts:28-55 | the pool has 9 entries; only the last is empty |
| ChatResponder.AcademicAppendagesShape | src/ai/chatResponder.ts:61-66 | four appendages, each opening with the academic context heading |
| ChatResponder.SourceTablesWellShaped | src/ai/chatResponder.ts:28-66 | the source's tables meet the shape the lemmas assume |
| ChatResponder.GetChatResponse | src/ai/chatResponder.ts:79-116 | over the source's tables: non-empty, base then profile suffix |
| Types.AcademicTierOfProfileTypes | src/ai/chatResponder.ts:102-104 | of the four profile types exactly Academic and Cultural professional are academic-tier, and only Student is student-tier |
| ContextualRag.GetContextualResponse | src/ai/contextualRAG.ts:47-70 | depth is Academic iff academic tier; the explanation is `CULTURAL_EXPLANATIONS[len % 5]`, plus the reference for that tier only; the links are always the same two |
| ContextualRag.DepthOfProfileTypes | src/ai/contextualRAG.ts:52-54 | "Academic" and "Cultural professional" get Academic; Student, General audience and null get General |
| ContextualRag.EmptySelectionGetsFirstExplanation | src/ai/contextualRAG.ts:57-58 | an empty selection starts with entry 0 |
| ContextualRag.ResponseDependsOnLength | src/ai/contextualRAG.ts:57-63 | selections of equal length get the same response |
| Personalization.ByInterests | src/lib/personalization.ts:25-27 | an order-preserving subsequence of the catalogue holding every article that shares a tag with the interests, with all its copies, and no other |
| Personalization.ForYouPool | src/lib/personalization.ts:28 | the interest matches when two or more articles match, otherwise the whole catalogue; empty only when the catalogue is |
| Personalization.ByRegion | src/lib/personalization.ts:35-37 | none without a region; with one, the subsequence holding every article tagged with it, with all its copies, and no other |
| Personalization.UsedIds | src/lib/personalization.ts:41 | exactly the ids of the hero, "for you" and "in your region" |
| Personalization.Unfeatured | src/lib/personalization.ts:42 | the subsequence of the catalogue holding every article whose id is unused, with all its copies, and no other |
| Personalization.GetPersonalizedFeed | src/lib/personalization.ts:11-45 | fails (the TypeError on an undefined hero) exactly for an onboarded profile and an empty catalogue |
| Personalization.GuestFeed | src/lib/personalization.ts:14-22 | guests and profiles still onboarding get all[0], all[1..5), all[5..9), all[9..12) |
| Personalization.SectionsAreSubsequences | src/lib/personalization.ts:25-42 | every section is an order-preserving subsequence of the catalogue and the hero is in it |
| Personalization.OnboardedFeedShape | src/lib/personalization.ts:28-42 | hero = pool[0] and "for you" = pool[1..5); "in your region" = the first four region matches when two or more match, else all[4..8); "discover" = the first four unfeatured articles; sections of at most 4, interest-matching when two or more match |
| Personalization.DiscoverIsDisjoint | src/lib/personalization.ts:41-42 | no "discover" article shares an id with the hero, "for you" or "in your region" |
| Articles.GetArticles | src/lib/articles.ts:18-20 | the list unchanged |
| Articles.FirstIndexWithId | src/lib/articles.ts:23 | the first index holding the id, or none when no later article has it |
| Articles.GetArticleById | src/lib/articles.ts:22-24 | the first article with that id; nothing iff no article has it |
| Articles.GetArticlesByTag | src/lib/articles.ts:26-28 | exactly the articles carrying the tag, each with all its copies, in order |
| Articles.GetArticlesByRegion | src/lib/articles.ts:30-32 | exactly the articles carrying the region, each with all its copies, in order |
| Profile.Merge | src/lib/profile.ts:14 | each field named in the update takes its new value; every other field is unchanged |
| Profile.MergeIdempotent | src/lib/profile.ts:14 | applying the same update twice stores what applying it once does |
| Profile.MergeThen | src/lib/profile.ts:14 | two updates in a row act as their spread, the later winning |
| Profile.MergeNoUpdates | src/lib/profile.ts:14 | an empty update changes nothing |
| Profile.GetProfile | src/lib/profile.ts:4-8 | null exactly when the slot is empty, else the stored profile |
| Profile.UpdateProfile | src/lib/profile.ts:10-17 | an empty slot returns null and writes nothing; otherwise the merged profile is stored and returned |
| Profile.CompleteOnboarding | src/lib/profile.ts:19-21 | the stored profile always ends with `onboardingComplete` true, whatever the updates say |
| Auth.CurrentUser | src/lib/auth.ts:58-64 | the stored profile iff one exists and is logged in |
| Auth.SignInRestoresStoredProfile | src/lib/auth.ts:36-42 | signing in with the stored email keeps every field and only sets `isLoggedIn` |
| Auth.SignInWithOtherEmailStartsOver | src/lib/auth.ts:44-45 | another email or an empty slot gives a fresh profile with no display name |
| Auth.SignOutThenSignIn | src/lib/auth.ts:37-55 | signing out and back in with the same email restores the profile |
| Auth.CurrentUserAfterTransitions | src/lib/auth.ts:48-64 | no current user after sign-out; the signed-in profile after sign-in |
| Auth.SignUp | src/lib/auth.ts:8-29 | stores the new profile with the source's defaults and returns its id, email and display name |
| Auth.SignIn | src/lib/auth.ts:31-46 | stores the signed-in profile and returns its identity |
| Auth.SignOut | src/lib/auth.ts:48-56 | clears only the logged-in flag; afterwards nobody is authenticated |
| Auth.IsAuthenticated | src/lib/auth.ts:66-68 | true iff a stored profile is logged in |
| Auth.GetCurrentUser | src/lib/auth.ts:58-68 | the stored profile iff it is logged in |
| ChatStore.LoadPersistedMessages | src/lib/chatStore.ts:41-53 | the stored array, or [] when nothing is stored, parsing fails or the value is not an array |
| ChatStore.Store.constructor | src/lib/chatStore.ts:55-58 | messages loaded from the key, mode "minimal", no article context |
| ChatStore.Store.Persist | src/lib/chatStore.ts:61-68 | the persisted copy becomes the encoding of the current messages |
| ChatStore.Store.AddMessage | src/lib/chatStore.ts:61-77 | appends exactly one message at the end and the persisted copy follows |
| ChatStore.Store.SetChatMode | src/lib/chatStore.ts:79-81 | replaces only the mode |
| ChatStore.Store.SetArticleContext | src/lib/chatStore.ts:83-85 | replaces only the context |
| ChatStore.Store.ClearMessages | src/lib/chatStore.ts:87-96 | the log becomes empty and the persisted copy with it |
| ChatStore.ReloadRestoresMessages | src/lib/chatStore.ts:41-68 | a persisted log loads back as the same messages |
| ChatStore.LoadWithoutArrayIsEmpty | src/lib/chatStore.ts:44-52 | every non-array case loads as [] |
| ArticleEjes.Render | src/components/article/ArticleEjes.tsx:16-47 | three questions, the first quoting «title» |
| ArticleEjes.FirstKeyIndex | src/components/article/ArticleEjes.tsx:49 | the first key in declaration order found in the tags, or none |
| ArticleEjes.FirstKeyIndexByMembership | src/components/article/ArticleEjes.tsx:49 | the choice depends only on which tags are present |
| ArticleEjes.GetEjes | src/components/article/ArticleEjes.tsx:11-58 | always three questions; the first quotes «title»; the first matching key's set, else the fallback |
| ArticleEjes.NoKeyGivesFallback | src/components/article/ArticleEjes.tsx:52-57 | no key among the tags gives the three generic questions |
| ArticleEjes.EarliestKeyWins | src/components/article/ArticleEjes.tsx:49-50 | the earliest key in declaration order wins, not `tags[0]` |
| ArticleEjes.EjesIgnoreTagOrder | src/components/article/ArticleEjes.tsx:49-50 | reordering or repeating tags does not change the questions |
| ArticleEjes.EjeRequest | src/components/article/ArticleEjes.tsx:84-90 | the responder gets the question, the title as context, the profile type and the earlier message count |
| ArticleEjes.EjeAnswerInSlot8QuotesTitle | src/components/article/ArticleEjes.tsx:85-91 | when the question lands in slot 8 the answer quotes «title» |
| ArticleEjes.EjesPanel.BeginEjeClick | src/components/article/ArticleEjes.tsx:70-79 | ignored while loading; otherwise context = title, mode sidebar, the question appended, the count from before it captured |
| ArticleEjes.EjesPanel.FinishEjeClick | src/components/article/ArticleEjes.tsx:84-92 | appends the responder's answer to the captured request and ends loading |
| GlobalChatbar.GetGuestInteractions | src/components/chat/GlobalChatbar.tsx:9-12 | a missing counter reads as 0, else the stored number |
| GlobalChatbar.IncrementGuestInteractions | src/components/chat/GlobalChatbar.tsx:13-17 | stores and returns the old count plus one |
| GlobalChatbar.IsGuest | src/components/chat/GlobalChatbar.tsx:75 | a guest is exactly someone for whom no current user would be returned (no profile, or one signed out) |
| GlobalChatbar.GetSuggestedPrompts | src/components/chat/GlobalChatbar.tsx:22-35 | three prompts; with a context the first contains «context»; without one the three fixed prompts |
| GlobalChatbar.Placeholder | src/components/chat/GlobalChatbar.tsx:67-69 | with a context the placeholder quotes «context» |
| GlobalChatbar.SendDecision | src/components/chat/GlobalChatbar.tsx:83-104 | the nudge iff a guest's incremented count exceeds 3; otherwise the responder's non-empty answer |
| GlobalChatbar.SignedInAlwaysAnswered | src/components/chat/GlobalChatbar.tsx:75-98 | a signed-in user is always answered |
| GlobalChatbar.Chatbar.View | src/components/chat/GlobalChatbar.tsx:61-65 | nothing iff fullscreen; expanded iff focused or non-empty input; three prompts |
| GlobalChatbar.Chatbar.PromptClick | src/components/chat/GlobalChatbar.tsx:120-123 | the prompt fills the input and the bar is focused |
| GlobalChatbar.Chatbar.BeginSend | src/components/chat/GlobalChatbar.tsx:71-80 | blank input or typing: nothing changes; otherwise the trimmed text is appended, the input cleared, and the request (trimmed text, context, profile type, count from before the send) and the guest test captured |
| GlobalChatbar.Chatbar.FinishSend | src/components/chat/GlobalChatbar.tsx:83-106 | a guest's counter grows by one and a signed-in user's is untouched; the decided reply is appended; mode becomes sidebar |
| GlobalChatbar.Chatbar.ClearContext | src/components/chat/GlobalChatbar.tsx:223 | the article context is cleared |
| ChatSidebar.Parts | src/components/chat/ChatSidebar.tsx:32 | the split array opens with the text before the first link |
| ChatSidebar.Tokenize | src/components/chat/ChatSidebar.tsx:35-55 | never more nodes than parts, and no empty text node |
| ChatSidebar.MessageContent | src/components/chat/ChatSidebar.tsx:31-57 | the loop produces `Tokenize(parts)` |
| ChatSidebar.TokenizeLinkStep | src/components/chat/ChatSidebar.tsx:37-50 | a part starting with "[" that has a successor becomes one link (label = next part, href = the one after) and three parts are consumed |
| ChatSidebar.TokenizeTextStep | src/components/chat/ChatSidebar.tsx:51-54 | any other part is kept as text when non-empty and dropped when empty |
| ChatSidebar.TokenizeWithoutBracketText | src/components/chat/ChatSidebar.tsx:32-54 | when no text part starts with "[", each `[label](href)` gives exactly one link, in order |
| ChatSidebar.BracketTextMisread | src/components/chat/ChatSidebar.tsx:37-41 | a text part starting with "[" before a link is misread (see Findings) |
| ChatSidebar.TokenizeAlignedCorrect | src/components/chat/ChatSidebar.tsx:32-54 | reading the parts by position always gives the intended text and links |
| ChatSidebar.ComposeMessage | src/components/chat/ChatSidebar.tsx:102-104 | without a quote the trimmed input; with one `("> " + quote + "\n\n" + trimmed).trim()` |
| ChatSidebar.ComposedQuoteKeepsText | src/components/chat/ChatSidebar.tsx:102-104 | with a quote and non-blank input, the final trim removes nothing |
| ChatSidebar.Placeholder | src/components/chat/ChatSidebar.tsx:95-97 | with a context the placeholder quotes «context» |
| ChatSidebar.ToggledMode | src/components/chat/ChatSidebar.tsx:129-131 | fullscreen goes to sidebar and anything else to fullscreen; the result is a mode the panel renders in |
| ChatSidebar.ToggleTwice | src/components/chat/ChatSidebar.tsx:129-131 | from a rendered mode, two toggles return to it |
| ChatSidebar.Sidebar.BeginSend | src/components/chat/ChatSidebar.tsx:99-116 | blank input with no quote, or typing: nothing changes; otherwise the composed message is appended, input and quote cleared, and the request captured with the trimmed input (never the quote) and the count from before the send |
| ChatSidebar.Sidebar.FinishSend | src/components/chat/ChatSidebar.tsx:111-118 | appends the responder's answer to the captured request and stops typing |
| ChatSidebar.Sidebar.ToggleFullscreen | src/components/chat/ChatSidebar.tsx:129-131 | the mode becomes its toggle |
| ChatSidebar.Sidebar.Collapse | src/components/chat/ChatSidebar.tsx:133-135 | the mode becomes minimal and the panel stops rendering |
| ChatSidebar.Sidebar.NewConversation | src/components/chat/ChatSidebar.tsx:231 | the log is cleared and the history closes |
| ChatSidebar.Sidebar.DismissQuote | src/components/chat/ChatSidebar.tsx:459 | the quote is dropped |
| ArticlePageClient.Truncate | src/components/article/ArticlePageClient.tsx:29 | text of at most 200 units unchanged; longer text becomes its first 200 + "…" |
| ArticlePageClient.Question | src/components/article/ArticlePageClient.tsx:30 | «truncated» followed by the fixed follow-up question |
| ArticlePageClient.SendToChatRequest | src/components/article/ArticlePageClient.tsx:36-41 | the responder gets the untruncated selection, the title and the profile type |
| ArticlePageClient.ArticlePage.Explore | src/components/article/ArticlePageClient.tsx:53 | the explore text is set |
| ArticlePageClient.ArticlePage.CloseExplore | src/components/article/ArticlePageClient.tsx:64 | the explore text is reset |
| ArticlePageClient.ArticlePage.BeginSendToChat | src/components/article/ArticlePageClient.tsx:28-33 | context = title, mode sidebar, the question appended; the kept request has the untruncated selection and the count from before the question |
| ArticlePageClient.ArticlePage.FinishSendToChat | src/components/article/ArticlePageClient.tsx:35-42 | the answer to the kept request is appended; context and mode unchanged |
| ArticleBody.Paragraphs | src/components/article/ArticleBody.tsx:10 | paragraphs are non-empty, free of "\n\n", in body order, and every non-empty piece is kept as many times as it occurs |
| ArticleBody.ParagraphsJoinToBody | src/components/article/ArticleBody.tsx:10 | with no empty piece, joining the paragraphs gives back the body |
| ArticleBody.Render | src/components/article/ArticleBody.tsx:32-43 | wrapped in the selection trigger iff `onExplore` is given; a missing `onSendToChat` becomes the no-op |
| CompanionOnboarding.PrimaryActionAt | src/components/feed/CulturalCompanionOnboardingModal.tsx:443-451 | close-and-sign-up iff last step with id "account"; next iff not last |
| CompanionOnboarding.PrimaryOnEachStep | src/components/feed/CulturalCompanionOnboardingModal.tsx:443-473 | steps 0–3 advance, step 4 ("account") closes and signs up; "Done" is never shown |
| CompanionOnboarding.ShouldShow | src/components/feed/CulturalCompanionOnboardingModal.tsx:553-556 | false iff the flag equals "true" |
| CompanionOnboarding.ShouldShowCompanionOnboarding | src/components/feed/CulturalCompanionOnboardingModal.tsx:553-556 | reads the dont-show key |
| CompanionOnboarding.FlagAfterClose | src/components/feed/CulturalCompanionOnboardingModal.tsx:138-143 | with the box checked the modal no longer shows; unchecked leaves the flag as it was |
| CompanionOnboarding.CompanionModal.constructor | src/components/feed/CulturalCompanionOnboardingModal.tsx:90-91 | starts on step 0 with the box unchecked |
| CompanionOnboarding.CompanionModal.MarkSeen | src/components/feed/CulturalCompanionOnboardingModal.tsx:98-100 | the seen key is set to "true" |
| CompanionOnboarding.CompanionModal.Back | src/components/feed/CulturalCompanionOnboardingModal.tsx:409-412 | offered only past step 0; decrements by one and stays inside the steps |
| CompanionOnboarding.CompanionModal.SelectStep | src/components/feed/CulturalCompanionOnboardingModal.tsx:273-283 | a tab or dot sets a step inside the list |
| CompanionOnboarding.CompanionModal.SetDontShow | src/components/feed/CulturalCompanionOnboardingModal.tsx:502-503 | the checkbox state |
| CompanionOnboarding.CompanionModal.HandleClose | src/components/feed/CulturalCompanionOnboardingModal.tsx:138-143 | writes the flag only when checked and closes |
| CompanionOnboarding.CompanionModal.Primary | src/components/feed/CulturalCompanionOnboardingModal.tsx:440-451 | next increments by one (staying below 5); the last step closes and, on "account", goes to /signup |
| ProfileContent.ToggleInterest | src/components/profile/ProfileContent.tsx:261-265 | a present interest is removed everywhere and the others kept in order with all their copies; an absent one is appended |
| ProfileContent.ToggleTwiceRestores | src/components/profile/ProfileContent.tsx:261-265 | toggling an absent interest twice restores the list |
| ProfileContent.ProfileInitials | src/components/profile/ProfileContent.tsx:288-295 | a truthy name gives the upper-cased first characters of its first two non-empty words, in order; an empty or missing name gives the upper-cased first e-mail character, or "?" for an empty e-mail |
| ProfileContent.ProfilePage.constructor | src/components/profile/ProfileContent.tsx:199-215 | the stored profile, nothing in edit, default drafts |
| ProfileContent.ProfilePage.StartEdit | src/components/profile/ProfileContent.tsx:217-228 | nothing without a profile; otherwise only that section's drafts are copied and it alone is in edit |
| ProfileContent.ProfilePage.CancelEdit | src/components/profile/ProfileContent.tsx:230 | leaves edit without touching the profile |
| ProfileContent.ProfilePage.ToggleDraftInterest | src/components/profile/ProfileContent.tsx:261-265 | the draft list is toggled |
| ProfileContent.ProfilePage.Update | src/hooks/useProfile.ts:11-15 | the store is merged and the page's copy follows when it succeeds |
| ProfileContent.ProfilePage.SaveInterests | src/components/profile/ProfileContent.tsx:232-235 | only the interests change; edit ends |
| ProfileContent.ProfilePage.SaveIdentity | src/components/profile/ProfileContent.tsx:237-244 | only profile type, region and exploration mode change; edit ends |
| ProfileContent.ProfilePage.SaveAi | src/components/profile/ProfileContent.tsx:246-249 | only the answer depth changes; edit ends |
| ProfileContent.ProfilePage.SaveNewsletter | src/components/profile/ProfileContent.tsx:251-254 | only the newsletter changes; edit ends |
| Avatar.FirstChars | src/components/layout/Navbar.tsx:13-14 | one character per non-empty word, its first, in word order; empty words give nothing |
| Avatar.Initials | src/components/layout/Navbar.tsx:10-17 | with a truthy name, the upper-cased first characters of its first two non-empty words, in order (fewer only when it has fewer); else the upper-cased first e-mail character; else the fallback |
| Avatar.TwoWordNameInitials | src/components/layout/Navbar.tsx:10-16 | a first and a last name give their two upper-cased initials |
| Avatar.SplitTwoWords | src/components/layout/Navbar.tsx:12 | two words around one space split into those two words |
| Navbar.NavbarInitials | src/components/layout/Navbar.tsx:10-17 | a truthy name gives the upper-cased first characters of its first two non-empty words; a falsy name gives the upper-cased first e-mail character, or "JD" for an empty e-mail; "JD" without a user |
| Navbar.ShowsAvatar | src/components/layout/Navbar.tsx:29 | the avatar shows iff not loading and logged in |
| ArticleToolbar.JsRem | src/components/article/ArticleToolbar.tsx:59 | JavaScript's `%`: agrees with the mathematical remainder for non-negative operands and stays within the divisor |
| ArticleToolbar.Fmt | src/components/article/ArticleToolbar.tsx:59 | `floor(s/60)`, a colon and `s % 60` padded to two digits |
| ArticleToolbar.TwoDigitSeconds | src/components/article/ArticleToolbar.tsx:59 | padded seconds are two digits that read back as the number |
| ArticleToolbar.FmtRoundTrip | src/components/article/ArticleToolbar.tsx:59 | the label for `s` seconds reads back as `s` |
| ArticleToolbar.ClockOfMinutesSeconds | src/components/article/ArticleToolbar.tsx:59 | minutes and padded seconds read back as `q*60 + x` |
| ArticleToolbar.MockDuration | src/components/article/ArticleToolbar.tsx:36 | a minute of audio per minute of reading |
| ArticleToolbar.Elapsed | src/components/article/ArticleToolbar.tsx:57 | the whole seconds played: the floor of progress% of the duration |
| ArticleToolbar.Remaining | src/components/article/ArticleToolbar.tsx:57-58 | elapsed plus remaining is the duration |
| ArticleToolbar.ClockWithinDuration | src/components/article/ArticleToolbar.tsx:57-58 | inside the bar both times lie in [0, duration] |
| ArticleToolbar.ClockAtEnd | src/components/article/ArticleToolbar.tsx:57-59 | at 100% everything has played and "0:00" remains |
| ArticleToolbar.ClampProgress | src/components/article/ArticleToolbar.tsx:200-203 | a click position is clamped to [0, 100] and kept when inside |
| ArticleToolbar.TickProgress | src/components/article/ArticleToolbar.tsx:46-49 | at or past 100 the tick pins 100; otherwise it adds the step |
| ArticleToolbar.TickStaysNearBar | src/components/article/ArticleToolbar.tsx:46-49 | from inside the bar a tick lands in [0, 100 + step] |
| ArticleToolbar.PodcastPlayer.constructor | src/components/article/ArticleToolbar.tsx:31-36 | paused at 0 while generating, duration from the reading time |
| ArticleToolbar.PodcastPlayer.FinishGenerating | src/components/article/ArticleToolbar.tsx:38-41 | generation ends |
| ArticleToolbar.PodcastPlayer.Tick | src/components/article/ArticleToolbar.tsx:43-50 | progress follows `TickProgress`; playback stops exactly when the bar was full |
| ArticleToolbar.PodcastPlayer.Seek | src/components/article/ArticleToolbar.tsx:200-203 | progress becomes the clamped position |
| ArticleToolbar.PodcastPlayer.Restart | src/components/article/ArticleToolbar.tsx:176 | back to 0 and paused |
| ArticleToolbar.PodcastPlayer.TogglePlaying | src/components/article/ArticleToolbar.tsx:209 | play and pause swap |
| ArticleToolbar.PodcastPlayer.ToggleCollapsed | src/components/article/ArticleToolbar.tsx:117 | collapsed and expanded swap |
| ArticleToolbar.PodcastPlayer.Clock | src/components/article/ArticleToolbar.tsx:169-170 | the two labels are `fmt(elapsed)` and `fmt(remaining)` |
| ArticleToolbar.GenerateSummary | src/components/article/ArticleToolbar.tsx:20-22 | the summary opens with the bold heading and the title |
| ArticleToolbar.DownloadText | src/components/article/ArticleToolbar.tsx:242 | no '*' is left, and the `---` replacement changes nothing |
| ArticleToolbar.Toolbar.TogglePodcast | src/components/article/ArticleToolbar.tsx:268 | the player opens and closes |
| ArticleToolbar.Toolbar.BeginSummary | src/components/article/ArticleToolbar.tsx:231-235 | ignored while loading; otherwise loading starts, context = title, mode sidebar |
| ArticleToolbar.Toolbar.FinishSummary | src/components/article/ArticleToolbar.tsx:237-238 | the summary is appended as the assistant's message and loading ends |
| Text.JoinSplit | src/components/article/ArticleBody.tsx:10 | joining a split with its separator gives back the string |
| Text.SplitPiecesAvoidSeparator | src/components/article/ArticleBody.tsx:10 | no piece of a split contains the separator |
| Text.TrimEmptyIff | src/components/chat/GlobalChatbar.tsx:72-73 | the trimmed input is empty iff every character is white space |
| Text.DecimalRoundTrip | src/components/article/ArticleToolbar.tsx:59 | `String(n)` reads back as `n` |
| Text.ReplaceAllBySelf | src/components/article/ArticleToolbar.tsx:242 | replacing a pattern by itself changes nothing |
| Text.DeleteCharRemovesAll | src/components/article/ArticleToolbar.tsx:242 | deleting a character everywhere leaves none |
| Seqs.FilterMultiplicity | src/lib/articles.ts:27 | a filter keeps every copy of a passing element and none of a failing one |
| Seqs.FilterConcat | src/components/profile/ProfileContent.tsx:263 | filtering distributes over concatenation |

## Left out

- Server rendering: every `typeof window === "undefined"` branch is left out. The model is the browser.
- Serialisation: localStorage holds JSON; the model keeps the values the JSON encodes. `ChatStore.PersistedChat` names the loading outcomes (nothing stored, unparseable, not an array, an array). An array whose items are not messages is not modelled.
- Timers, randomness and async pauses: each `await setTimeout(...)` handler is split into `Begin…` and `Finish…` steps (`handleSendToChat` into `BeginSendToChat` and `FinishSendToChat`). Unmounting during the pause is not modelled, and neither are overlapping sends in the panels that keep a single pending send.
- Identifiers and time: `crypto.randomUUID()`, `Date.now()`, `generateUserId()` and the locale date in the summary are parameters of the methods that use them.
- `String.length` is modelled as sequence length, so UTF-16 surrogate pairs are not distinguished.
- `toUpperCase`/`toLowerCase` are modelled on ASCII letters only.
- GlobalChatbar.GetGuestInteractions: `parseInt` of a stored text that is not a number (NaN) is not modelled; the counter is stored as a number.
- ArticleToolbar.PodcastPlayer.Tick: the interval's floating-point step `100 / MOCK_DURATION` is a `real` parameter. Rounding and the interval's scheduling are not modelled.
- ArticleToolbar.GenerateSummary: its contract states only the opening heading. The fixed Spanish body is given in full as constants but is not further specified.
- ChatSidebar's `quotedText` comes from the chat store, which declares no such field in src/lib/chatStore.ts. The model keeps the quote as the panel's own state.
- `ChatSidebar.MessageContent` works on the parts of the regular-expression split (`ChatSidebar.Parts` over `SplitResult`). The regular-expression engine is not modelled.
- The responder tables: the lemmas are stated over any `Tables` value of the right shape. `ChatResponder.SourceTables` holds the source's text, and `ChatResponder.SourceTablesWellShaped` proves it has that shape.
- React hooks (`useAuth`, `useProfile`, effects) are modelled only where they change state (`ProfileContent.ProfilePage.Update`, `CompanionOnboarding.CompanionModal.MarkSeen`).
- The modal's focus trap, Escape key, overlay click and `onClose` callback are not modelled; closing sets `closed`. `window.location.href` is the `location` field.
- Profile sections are the `Section` datatype instead of strings, so no unknown section name can be passed to `startEdit`.
- Blob and object-URL downloads are left out; `DownloadText` is the text that would be written.
- JSX markup, styles, icons, hover handlers and the purely presentational components are left out, as are `formatDate` (a locale call), the selection geometry in TextSelectionTrigger.tsx, `Math.random` in CompanionCard.tsx and the confirmation timer in SendToChatButton.tsx.
- ContextualExplorePanel.tsx is only a wrapper around `getContextualResponse`, which is modelled.

## Findings

| source | as written | input that shows it | evidently intended | confidence | as-written member | corrected member |
|---|---|---|---|---|---|---|
| src/components/chat/ChatSidebar.tsx:37-41 | any part starting with "[" that has a successor is taken for a whole link match, including the plain text before a link | the answer "[y] and [a](/b)" splits into "[y] and ", "[a](/b)", "a", "/b", ""; the renderer shows the link "[a](/b)" pointing to "a" and then the text "/b" | the text "[y] and " followed by the link "a" to "/b" | not executed | ChatSidebar.BracketTextMisread | ChatSidebar.TokenizeAlignedCorrect |
