# Study assistant: storage, AI provider layer, handlers and client state machines

This project models the core of a personalised learning platform. In it, students upload
textbooks as PDFs, plan study sessions, chat with an AI study assistant and study from
generated flashcards. The model covers these parts of the system:

- **`MemStorage`** (`Storage.MemStorage`), the server's in-memory repository.
  - It holds eight tables (users, materials, sessions, summaries, flashcards, conversations,
    badges, user badges). Each table maps an id to a record and has an id counter that every
    create post-increments.
  - It is a class whose map and counter fields its methods update. The invariant
    `Valid()` says that every stored key was issued by its table's counter.
  - The listings follow JavaScript `Map` insertion order, which is ascending id order here
    because ids come only from the counters. Then come a filter and a stable sort. The sort
    is modelled as a stable insertion sort (module `Seqs`).
- **The AI provider layer** (`Ai`).
  - Which backend is configured: OpenAI, Gemini, or none.
  - How chat messages are relabelled for each backend.
  - The OpenAI-then-Gemini fallback of the free-text and JSON completions. These are methods
    that return, besides their result, the requests they sent.
  - The extraction of a JSON object from free text.
- **The decision logic of the HTTP handlers** (`Routes`), as methods over the store:
  - registration with its username-uniqueness guard, and login;
  - lookup-before-mutate on PUT and DELETE;
  - the chat transcript;
  - the keep-or-fallback rule of the flashcard generator;
  - the file-extension rule of uploads.
- **The client helpers** (`Utils`): `formatStudyTime`, with a parser that reads its output
  back; `calculateProgress`; and `truncateText`.
- **The client state machines**, each a class whose fields are the component's state:
  - the two wrap-around flashcard carousels (`Flashcards`);
  - the PDF viewer's page navigation and page/progress mapping (`PdfViewing`);
  - the registration form and its ordered checks (`Registration`);
  - the recent-materials card with its progress bands and upload guards (`RecentMaterials`).

Time is an integer timestamp passed in as a parameter (`now`, plus `today` and `tomorrow`
for the seed data). The OpenAI and Gemini services are parameters: functions from the
request they receive to their reply or the error they throw. `JSON.parse` is a parameter
`parse` that returns None where it would throw. The other outside influences are also
parameters:

- the registration endpoint's reply;
- the upload's outcome and the progress percentages it reports;
- the rendering of dates.

Modules:

- `Wrappers`: Option and Result.
- `Schema`: the records and their patches.
- `Strings` and `Seqs`: the JavaScript string and array operations the source relies on.
- `Storage`, `Ai`, `Routes`, `Utils`, `Flashcards`, `PdfViewing`, `Registration` and
  `RecentMaterials`: one module per core file.

## Model

| member | source | states |
|---|---|---|
| Storage.MemStorage.constructor | server/storage.ts:78-100 | the store starts with the sample rows; counters stand at user 2, badge 4, user badge 4, material 4, session 4, summary 1, flashcard 2, conversation 2; every key was issued by its counter |
| Storage.MemStorage.InitializeSampleData | server/storage.ts:102-257 | from empty tables and counters at 1, every sample row takes the next id of its table, leaving exactly the seed tables and counters above |
| Storage.MemStorage.GetUser | server/storage.ts:260-262 | present iff the id is a key of the table, and then exactly the user stored under it |
| Storage.MemStorage.GetMaterial | server/storage.ts:287-289 | present iff the id is a key of the table, and then exactly the material stored under it |
| Storage.MemStorage.GetStudySession | server/storage.ts:325-327 | present iff the id is a key of the table, and then exactly the study session stored under it |
| Storage.MemStorage.GetMaterialSummary | server/storage.ts:368-370 | present iff the id is a key of the table, and then exactly the summary stored under it |
| Storage.MemStorage.GetFlashcard | server/storage.ts:389-391 | present iff the id is a key of the table, and then exactly the flashcard stored under it |
| Storage.MemStorage.GetConversation | server/storage.ts:420-422 | present iff the id is a key of the table, and then exactly the conversation stored under it |
| Storage.SeedMaterialsIssued | server/storage.ts:155-190 | the seeded materials sit exactly under the ids 1-3 their counter issued |
| Storage.SeedSessionsIssued | server/storage.ts:198-230 | the seeded sessions sit exactly under the ids 1-3 their counter issued |
| Storage.SeedConversationsIssued | server/storage.ts:246-256 | the seeded conversation sits under id 1 and carries that id |
| Storage.MemStorage.GetUserByUsername | server/storage.ts:264-268 | absent iff no user has the username; otherwise the user with that name that has the smallest id, which is the first in insertion order |
| Storage.MemStorage.CreateUser | server/storage.ts:270-275 | the new user takes the current counter as its id, above every existing key, with level 1, xp 0, study time 0 and creation time now; the counter grows by one; get(id) returns exactly that user |
| Storage.MemStorage.UpdateUser | server/storage.ts:277-284 | an unknown id gives absent and leaves the table unchanged; a known id stores and returns the stored user with the patch spread over it, and no other key changes |
| Storage.MemStorage.MaterialsOf | server/storage.ts:292-293 | exactly the stored materials of the user; in ascending id order, which is insertion order, each exactly once (the i-th is the record under the i-th matching key) |
| Storage.MemStorage.GetMaterialsByUserId | server/storage.ts:291-295 | a permutation of the user's materials, by last viewed descending (never viewed counts as 0); materials with equal keys keep their insertion order |
| Storage.MemStorage.CreateMaterial | server/storage.ts:297-309 | the next material id, above every key; progress 0 when absent or 0; an absent or empty description and an absent lastViewed become null; get(id) returns it |
| Storage.MemStorage.UpdateMaterial | server/storage.ts:311-318 | an unknown id leaves the table unchanged and returns absent; a known one is shallow-merged with patch fields winning, and the rest of the table is untouched |
| Storage.MemStorage.DeleteMaterial | server/storage.ts:320-322 | returns true iff the id was present; afterwards that id is absent and no other entry changes |
| Storage.MemStorage.SessionsOf | server/storage.ts:330-331 | exactly the stored sessions of the user; in ascending id order, which is insertion order, each exactly once (the i-th is the record under the i-th matching key) |
| Storage.MemStorage.GetStudySessionsByUserId | server/storage.ts:329-333 | a permutation of the user's sessions, earliest start first, ties in insertion order |
| Storage.MemStorage.UpcomingOf | server/storage.ts:337-338 | exactly the user's sessions that start at or after now and are not completed; in ascending id order, which is insertion order, each exactly once (the i-th is the record under the i-th matching key) |
| Storage.MemStorage.GetUpcomingStudySessions | server/storage.ts:335-340 | exactly the user's not-completed sessions starting at or after now, ascending by start time, ties in insertion order |
| Storage.MemStorage.CreateStudySession | server/storage.ts:342-352 | the next session id, above every key; not completed; created now; get(id) returns it |
| Storage.MemStorage.UpdateStudySession | server/storage.ts:354-361 | an unknown id gives absent with the table unchanged; a known one is shallow-merged, and other keys stay as they were |
| Storage.MemStorage.DeleteStudySession | server/storage.ts:363-365 | returns true iff the id was present; only that entry goes |
| Storage.MemStorage.GetMaterialSummariesByMaterialId | server/storage.ts:372-375 | exactly the summaries of the material; in ascending id order, which is insertion order, each exactly once (the i-th is the record under the i-th matching key) |
| Storage.MemStorage.CreateMaterialSummary | server/storage.ts:377-386 | the next summary id, above every key, created now; get(id) returns it |
| Storage.MemStorage.GetFlashcardsByUserId | server/storage.ts:393-396 | exactly the flashcards of the user; in ascending id order, which is insertion order, each exactly once (the i-th is the record under the i-th matching key) |
| Storage.MemStorage.GetFlashcardsByMaterialId | server/storage.ts:398-401 | exactly the flashcards whose material id equals the given one; a card without a material never matches; in ascending id order, which is insertion order, each exactly once (the i-th is the record under the i-th matching key) |
| Storage.StoredMaterialId | server/storage.ts:408 | a flashcard's material id is kept unless it is 0, which is stored as null like an absent one; 0 is never stored |
| Storage.MemStorage.CreateFlashcard | server/storage.ts:403-413 | the next flashcard id, above every key, with the material id normalised as above, created now; get(id) returns it |
| Storage.MemStorage.DeleteFlashcard | server/storage.ts:415-417 | returns true iff the id was present; only that entry goes |
| Storage.MemStorage.ConversationsOf | server/storage.ts:425-426 | exactly the stored conversations of the user; in ascending id order, which is insertion order, each exactly once (the i-th is the record under the i-th matching key) |
| Storage.MemStorage.GetConversationsByUserId | server/storage.ts:424-428 | a permutation of the user's conversations, newest first, ties in insertion order |
| Storage.MemStorage.CreateConversation | server/storage.ts:430-440 | the next conversation id, above every key; the messages when they are an array, otherwise none; created now |
| Storage.MemStorage.UpdateConversation | server/storage.ts:442-449 | an unknown id gives absent with the table unchanged; a known one has its whole message list replaced, and nothing else changes |
| Storage.MemStorage.DeleteConversation | server/storage.ts:451-453 | returns true iff the id was present; only that entry goes |
| Storage.MemStorage.GetAllBadges | server/storage.ts:456-458 | exactly the catalogue; in ascending id order, which is insertion order, each exactly once (the i-th is the record under the i-th matching key) |
| Storage.BadgeIds | server/storage.ts:463 | one badge id per user-badge row, and exactly the ids the rows name |
| Storage.MemStorage.UserBadgeIds | server/storage.ts:461-463 | exactly the badge ids named by the user's rows |
| Storage.MemStorage.GetUserBadges | server/storage.ts:460-467 | the catalogue filtered, in catalogue order, by whether some row of the user names the badge: exactly those badges, none more often than the catalogue holds it, whatever the number of rows |
| Seqs.FilterKeepsOrder | server/storage.ts:465-466 | `filter` keeps its elements in their relative order: the i-th kept element sits at the i-th of strictly increasing positions, and every element that passes is kept |
| Seqs.FilterInKeyOrder | server/storage.ts:292-293 | filtering the id-ordered iteration of a table yields, at position i, the value under the i-th matching key, and the matching keys strictly increase, so each matching entry appears once and in insertion order |
| Seqs.InKeyOrderAtKeys | server/storage.ts:456-458 | the id-ordered iteration of a table yields, at position i, the value under the i-th key in ascending order |
| Storage.MemStorage.AssignBadgeToUser | server/storage.ts:469-478 | the next user-badge id, above every key, earned now |
| Schema.MergeMaterialIdempotent | server/storage.ts:315 | spreading the same patch twice gives what spreading it once gives |
| Schema.MergeUser | server/storage.ts:281 | an empty patch leaves the user as it is; the id is the patch's when it names one; a patch without a password keeps the stored one |
| Schema.MergeMaterial | server/storage.ts:315 | an empty patch leaves the material as it is; the id is the patch's when it names one; a patch naming neither progress nor last view keeps both |
| Schema.MergeSession | server/storage.ts:358 | an empty patch leaves the session as it is; the id is the patch's when it names one; a patch without `isCompleted` keeps it |
| Ai.HasAIServices | server/ai.ts:26-28 | true iff some backend has its key; false only for the configuration with neither key |
| Ai.GetActiveAIService | server/ai.ts:31-35 | "OpenAI" iff its key is set, "Gemini" iff only the Gemini key is set, "None" iff no service is configured |
| Ai.ToOpenAIFormat | server/ai.ts:42-45 | same length and contents; a "system" role becomes "assistant" and other roles are kept |
| Ai.OpenAIFormatRoles | server/ai.ts:42-45 | no message reaches OpenAI as "system"; other roles are unchanged; relabelling twice is relabelling once |
| Ai.ToGeminiFormat | server/ai.ts:182-187 | same length and texts; "user" stays "user" and every other role becomes "model" |
| Ai.GeminiFormatRoles | server/ai.ts:182-187 | every Gemini role is "user" or "model", and is "user" exactly where the caller's role was "user" |
| Ai.GeminiFormatAppend | server/ai.ts:182-187 | converting a concatenation converts each part |
| Ai.ExtractJsonFromText | server/ai.ts:190-205 | the result is a contiguous piece of the text; when it differs from the text it runs from a '{' to a '}' |
| Ai.ExtractJsonBetweenBraces | server/ai.ts:192-199 | with the first '{' at i and the last '}' at j > i, exactly text[i..j] is returned |
| Ai.ExtractJsonNoObject | server/ai.ts:194-204 | without a '}' after some '{', the text comes back unchanged |
| Ai.ExtractJsonIdempotent | server/ai.ts:190-205 | extracting twice is extracting once |
| Ai.ExtractJsonExample | server/ai.ts:190-205 | the prose around `{"a":1}` is dropped |
| Ai.GeminiChatCompletion | server/ai.ts:110-136 | unconfigured Gemini throws "Gemini API key not configured" without a call; otherwise one chat whose history is all messages but the last, sending the last one's text |
| Ai.ChatCompletion | server/ai.ts:38-70 | at most two calls; with no service it throws "No AI service available…" without a call; OpenAI is asked first when configured and its reply is returned; Gemini is called iff OpenAI is unconfigured or threw; an OpenAI error with no Gemini key is rethrown; the outcome is exactly `Completion` |
| Ai.Completion | server/ai.ts:38-70 | a successful completion needs a configured service; a null text can only come from OpenAI when there is no fallback; the missing-last-message error only arises for an empty message list |
| Ai.OpenAIJsonText | server/ai.ts:88 | a missing or empty OpenAI reply is read as "{}" |
| Ai.GeminiChatCompletionJSON | server/ai.ts:139-179 | the JSON instruction is appended as a last user message and sent; the reply's extracted object is parsed, and a parse failure is an error |
| Ai.ChatCompletionJSON | server/ai.ts:73-107 | at most two calls; OpenAI is asked first in JSON mode; Gemini is called iff OpenAI is unconfigured, threw, or its reply did not parse; with no service it throws without a call; the outcome is exactly `JsonCompletion` |
| Ai.JsonCompletion | server/ai.ts:73-107 | a successful JSON completion needs a configured service and is a value the parser produced |
| Routes.WithoutPasswordForgetsOnlyPassword | server/routes.ts:62-64 | two users look alike without their passwords iff they differ at most in the password |
| Routes.WithoutPassword | server/routes.ts:62-64 | every field but the password is copied to the public view |
| Routes.SeedUsernamesUnique | server/storage.ts:104-115 | the seeded users have unique usernames |
| Routes.HandleRegister | server/routes.ts:52-68 | a taken username gives 400 "Username already exists" and leaves the store unchanged; otherwise the user is created and returned, without the password, with 201; usernames stay unique |
| Routes.HandleLogin | server/routes.ts:70-84 | 401 "Invalid credentials" or 200 with the user without the password; with unique usernames, 401 iff no user has that username or its password differs |
| Routes.HandleUpdateMaterial | server/routes.ts:161-175 | an unknown id gives 404 with the store unchanged; a known one gives 200 with the merged material |
| Routes.HandleDeleteMaterial | server/routes.ts:177-191 | an unknown id gives 404 with the store unchanged; a known one is removed and gives 204 |
| Routes.HandleUpdateSession | server/routes.ts:251-265 | an unknown id gives 404 with the store unchanged; a known one gives 200 with the merged session |
| Routes.HandleDeleteSession | server/routes.ts:267-281 | an unknown id gives 404 with the store unchanged; a known one is removed and gives 204 |
| Routes.HandleDeleteFlashcard | server/routes.ts:314-328 | an unknown id gives 404 with the store unchanged; a known card is removed and gives 204 |
| Routes.HandleUpdateConversation | server/routes.ts:351-365 | an unknown id gives 404 with the store unchanged; a known one has its messages replaced and gives 200 |
| Routes.ChatTranscriptExtends | server/routes.ts:396-407 | the transcript is the conversation so far (or the assistant prompt), then the user's message, then the reply under the role "system" |
| Routes.ChatPromptEndsWithMessage | server/routes.ts:396-401 | the prompt is never empty and its Gemini request sends exactly the user's message, with everything before it as history |
| Routes.ChatPrompt | server/routes.ts:395-400 | the conversation's messages, or the assistant prompt alone, followed by exactly the user's message |
| Routes.ChatTranscript | server/routes.ts:406 | the prompt extended by one message under the role "system" holding the reply |
| Routes.HandleChat | server/routes.ts:379-428 | a missing user id or message gives 400, and an unknown named conversation gives 404, both before any call and with the store unchanged; an AI failure gives 500 with the store unchanged; a reply gives 200 and the transcript replaces the named conversation's messages or starts a new conversation; once the checks pass, 500 iff the completion of the prompt fails, carrying its error, and a 200 answers with the completion's text |
| Routes.CheckCard | server/routes.ts:487 | a kept card has a non-empty question and answer; the callback throws exactly on a null element |
| Routes.KeptCardsAreThosePassing | server/routes.ts:486-495 | a pair is kept iff some element of the array passes the check with it |
| Routes.KeptCardsFilled | server/routes.ts:487-493 | no kept pair has an empty question or answer |
| Routes.KeptCardsAppend | server/routes.ts:486-496 | keeping distributes over concatenation, so array order is kept |
| Routes.SaveGeneratedCards | server/routes.ts:485-499 | the passing cards are created in array order with consecutive new ids; the response lists exactly those; the counter advances by their number |
| Routes.FallbackAnswer | server/routes.ts:518 | the summary when it is non-empty, otherwise "Information about <topic>" |
| Routes.SaveFallbackCard | server/routes.ts:503-522 | 200 iff the summary completion succeeds, and then exactly one card "Key concepts about <topic>?" is created, answered by that summary (or "Information about <topic>"), and it is the only card listed; otherwise 500 with the completion's error and the store unchanged |
| Routes.SaveFlashcardsOrFallback | server/routes.ts:480-523 | a flashcards array with no throwing element saves the passing cards; a missing array or a throwing element falls back to one summary card, with 200 iff the summary completion succeeds and that summary as its answer; the table only gains new ids |
| Routes.HandleGenerateFlashcards | server/routes.ts:464-528 | a missing user id or topic gives 400 with no call; otherwise, for the JSON completion of the cards prompt, a usable array with no null element answers 200 with exactly the passing cards, stored under consecutive new ids; any other outcome falls back to one summary card, 200 iff the summary completion succeeds and 500 with its error otherwise; at most four calls |
| Routes.UploadExtension | server/routes.ts:37 | the text after the last '.', or the whole name without a dot, or "pdf" when that is empty; never empty and dot-free |
| Routes.UploadExtensionOfDotted | server/routes.ts:37 | a name that ends in a dot-free, non-empty extension keeps it |
| Routes.StoredPathKeepsExtension | server/routes.ts:36-38 | the stored path `/uploads/<hash>.<ext>` has the upload's extension |
| Routes.StoredPath | server/routes.ts:36-38 | `/uploads/<hash>.` followed by a non-empty extension that has no dot |
| Utils.JsRem | client/src/lib/utils.ts:11 | JavaScript `%`: the dividend is the divisor times the quotient truncated toward zero plus the remainder; the remainder takes the sign of the dividend; for a non-negative one it is the Euclidean remainder |
| Utils.JsRemOfNegative | client/src/lib/utils.ts:11 | for a negative dividend JavaScript's `%` differs from the Euclidean one: -7 % 5 is -2, not 3 |
| Utils.FormatStudyTime | client/src/lib/utils.ts:9-22 | never empty; under an hour only the minutes; a whole number of hours only the hours |
| Utils.FormatStudyTimeShapes | client/src/lib/utils.ts:9-22 | under an hour "m min" or "m mins"; whole hours "h hr" or "h hrs"; otherwise "h hr(s) m min(s)" with h = minutes div 60 and m = minutes mod 60 |
| Utils.FormatStudyTimeRoundTrip | client/src/lib/utils.ts:9-22 | the rendering of every non-negative study time reads back to that number of minutes |
| Utils.FormatStudyTimeInjective | client/src/lib/utils.ts:9-22 | different non-negative study times never render alike |
| Utils.RoundHalfUp | client/src/lib/utils.ts:27 | `Math.round` of an exact quotient: the nearest integer, ties upward |
| Utils.CalculateProgress | client/src/lib/utils.ts:25-28 | 0 for a zero total; never above 100; below the cap, the rounded percentage |
| Utils.CalculateProgressBounds | client/src/lib/utils.ts:25-28 | through a positive total, progress runs from 0 at the start to 100 at the end |
| Utils.CalculateProgressMonotone | client/src/lib/utils.ts:25-28 | more done never shows less progress |
| Utils.SliceEnd | client/src/lib/utils.ts:33 | where `slice(0, end)` stops: within the text, and at end when end is in range |
| Utils.TruncateText | client/src/lib/utils.ts:31-34 | text that fits is returned unchanged; a longer one becomes its first maxLength characters plus "...", of length maxLength + 3 |
| Utils.TruncateTextIdempotent | client/src/lib/utils.ts:31-34 | truncating twice is truncating once |
| Flashcards.NextIndex | client/src/components/study-buddy/FlashcardGenerator.tsx:132-137 | from an index in range, the next index is (i + 1) mod len: the last card wraps to the first |
| Flashcards.PrevIndex | client/src/components/study-buddy/FlashcardGenerator.tsx:125-130 | from an index in range, the previous index stays in range and next undoes it |
| Flashcards.NextPrevInverse | client/src/components/study-buddy/FlashcardGenerator.tsx:125-137 | previous undoes next and next undoes previous |
| Flashcards.AdvanceIsRotation | client/src/components/study-buddy/FlashcardGenerator.tsx:132-137 | pressing next k times from an index in range moves k places around the ring |
| Flashcards.AdvanceFullLap | client/src/components/study-buddy/FlashcardGenerator.tsx:132-137 | len presses of next come back to the starting card |
| Flashcards.StaleIndexNeverWraps | client/src/components/study-buddy/FlashcardGenerator.tsx:134 | an index at or past the end, left stale by the filter effect, only ever grows under next |
| Flashcards.ShownCards | client/src/components/study-buddy/FlashcardGenerator.tsx:74-81 | without a material all cards are shown; with one, exactly the cards of that material, in order |
| Flashcards.ShownCardsAllOfMaterial | client/src/components/study-buddy/FlashcardGenerator.tsx:76-77 | when every card belongs to the material, the filter drops nothing |
| Flashcards.ShownCardsAppend | client/src/components/study-buddy/FlashcardGenerator.tsx:76-77 | the filter distributes over concatenation, so order is kept |
| Flashcards.FlashcardGenerator.constructor | client/src/components/study-buddy/FlashcardGenerator.tsx:28-31 | no cards, index 0, unflipped, not generating |
| Flashcards.FlashcardGenerator.CurrentFlashcard | client/src/components/study-buddy/FlashcardGenerator.tsx:143 | the card at the index when it is in range; with an index in range, none exactly when no card is shown |
| Flashcards.FlashcardGenerator.ApplyFilter | client/src/components/study-buddy/FlashcardGenerator.tsx:74-81 | once the cards have loaded, the displayed list is the filtered list; the index is left as it was |
| Flashcards.FlashcardGenerator.HandleNext | client/src/components/study-buddy/FlashcardGenerator.tsx:132-137 | with no card, nothing changes; otherwise the next index, wrapping, and the card is unflipped; the index stays in range |
| Flashcards.FlashcardGenerator.HandlePrevious | client/src/components/study-buddy/FlashcardGenerator.tsx:125-130 | with no card, nothing changes; otherwise the previous index, wrapping, and unflipped; the index stays in range |
| Flashcards.FlashcardGenerator.HandleCardClick | client/src/components/study-buddy/FlashcardGenerator.tsx:139-141 | the card turns over and nothing else changes |
| Flashcards.FlashcardGenerator.StartGenerating | client/src/components/study-buddy/FlashcardGenerator.tsx:94 | the panel is generating |
| Flashcards.FlashcardGenerator.FinishGenerating | client/src/components/study-buddy/FlashcardGenerator.tsx:110-122 | no longer generating; after a success the new cards are shown from index 0, unflipped; after a failure the display is kept |
| Flashcards.TopicOf | client/src/components/dashboard/FlashcardWidget.tsx:50 | the topic is the text before the first '?' with only whitespace cut from its ends, and none left at them; it holds no '?' |
| Strings.Trim | client/src/components/dashboard/FlashcardWidget.tsx:50 | `trim()` cuts only whitespace from the two ends and leaves none at them; the result is a piece of the input |
| Strings.TrimUnique | client/src/components/dashboard/FlashcardWidget.tsx:50 | that characterisation determines `trim()`: any piece of s with only whitespace around it and none at its ends is `s.trim()` |
| Flashcards.TopicOfExample | client/src/components/dashboard/FlashcardWidget.tsx:50 | the topic of " DNA? Why" is "DNA" |
| Flashcards.TopicOfIsInfix | client/src/components/dashboard/FlashcardWidget.tsx:50 | the topic is a contiguous piece of the question |
| Flashcards.TopicOfIdempotent | client/src/components/dashboard/FlashcardWidget.tsx:50 | deriving the topic of a topic changes nothing |
| Flashcards.FlashcardWidget.constructor | client/src/components/dashboard/FlashcardWidget.tsx:21 | the widget starts at card 0 |
| Flashcards.FlashcardWidget.HandleNext | client/src/components/dashboard/FlashcardWidget.tsx:40-44 | without cards nothing changes; otherwise the next index, wrapping |
| Flashcards.FlashcardWidget.HandlePrevious | client/src/components/dashboard/FlashcardWidget.tsx:34-38 | without cards nothing changes; otherwise the previous index, wrapping |
| Flashcards.FlashcardWidget.CurrentFlashcard | client/src/components/dashboard/FlashcardWidget.tsx:82 | none when the list is missing or empty; otherwise the card at the index |
| Flashcards.FlashcardWidget.GenerateMore | client/src/components/dashboard/FlashcardWidget.tsx:46-67 | without cards the generator is opened and no request is made; with a current card a request is made for its question's topic |
| PdfViewing.CeilDiv | client/src/components/textbook/PdfViewer.tsx:61 | the least integer at or above a / b |
| PdfViewing.ProgressOfPage | client/src/components/textbook/PdfViewer.tsx:48 | floor(page * 100 / totalPages) |
| PdfViewing.PageOfProgress | client/src/components/textbook/PdfViewer.tsx:61 | ceil(progress * totalPages / 100) |
| PdfViewing.ResumePage | client/src/components/textbook/PdfViewer.tsx:28-31 | the page a saved progress points into among ten pages, or 1 when that is 0 |
| PdfViewing.ProgressOfPageBounds | client/src/components/textbook/PdfViewer.tsx:42-51 | for a page in range, the percentage is in (0, 100] and is 100 exactly on the last page |
| PdfViewing.PageOfProgressBounds | client/src/components/textbook/PdfViewer.tsx:59-65 | a percentage in [0, 100] points to a page in [0, totalPages]; only 0% gives page 0 and 100% gives the last page |
| PdfViewing.PageProgressRoundTrip | client/src/components/textbook/PdfViewer.tsx:42-65 | the page a reported percentage points into is the page that reported it |
| PdfViewing.ResumeAtSavedPage | client/src/components/textbook/PdfViewer.tsx:28-31 | a material saved at a page's progress reopens at that page |
| PdfViewing.PdfViewer.constructor | client/src/components/textbook/PdfViewer.tsx:13-16 | page 1, no pages yet, loading, no document |
| PdfViewing.PdfViewer.OpenMaterial | client/src/components/textbook/PdfViewer.tsx:19-31 | the material's file, or the placeholder, is shown; a non-zero saved progress picks the resume page; without a material nothing changes |
| PdfViewing.PdfViewer.FinishLoading | client/src/components/textbook/PdfViewer.tsx:34-37 | loading ends with ten pages |
| PdfViewing.PdfViewer.HandleNextPage | client/src/components/textbook/PdfViewer.tsx:42-51 | below the last page, one page on, reporting that page's percentage in (0, 100], 100 exactly on the last page; otherwise (also while there are no pages) nothing; the page stays in range |
| PdfViewing.PdfViewer.HandlePrevPage | client/src/components/textbook/PdfViewer.tsx:53-57 | above the first page, one page back, otherwise nothing; the page stays in range |
| PdfViewing.PdfViewer.HandleProgressChange | client/src/components/textbook/PdfViewer.tsx:59-65 | the page the percentage points into, unclamped, and the percentage reported unchanged; 0% gives page 0 |
| Registration.WithLaws | client/src/pages/Register.tsx:22-28 | writing back a field's own value changes nothing; a second edit of a field overrides the first |
| Registration.WithCommutes | client/src/pages/Register.tsx:22-28 | edits of two different fields commute |
| Registration.FormData.With | client/src/pages/Register.tsx:22-28 | the named field takes the value and every other field keeps its own |
| Registration.Validate | client/src/pages/Register.tsx:33-69 | "All fields are required" iff a field the server needs is empty; otherwise "Passwords do not match" iff they differ; otherwise the length error iff under 6; otherwise the request of username, name, email and password |
| Registration.ValidatedFormRoundTrip | client/src/pages/Register.tsx:64-69 | a form that passes sends its four account fields unchanged |
| Registration.FailureMessage | client/src/pages/Register.tsx:71-74 | the server's message when it has one, otherwise "Registration failed"; never empty |
| Registration.RegisterForm.constructor | client/src/pages/Register.tsx:12-19 | an empty form, not loading |
| Registration.RegisterForm.HandleChange | client/src/pages/Register.tsx:22-28 | only the named field takes the value |
| Registration.RegisterForm.HandleRegister | client/src/pages/Register.tsx:30-98 | a failing check shows its message and sends nothing; otherwise the validated request is sent, the outcome is registered or the failure message, and the form is idle afterwards |
| RecentMaterials.ProgressBand | client/src/components/dashboard/RecentMaterialsWidget.tsx:86-90 | "secondary" iff progress ≥ 75, "primary" iff 40 ≤ progress < 75, "warning" iff progress < 40 |
| RecentMaterials.ProgressBandMonotone | client/src/components/dashboard/RecentMaterialsWidget.tsx:86-90 | more progress never shows a lower band |
| RecentMaterials.ClassNamesDistinct | client/src/components/dashboard/RecentMaterialsWidget.tsx:87-89 | different bands are drawn with different classes |
| RecentMaterials.FormatLastViewed | client/src/components/dashboard/RecentMaterialsWidget.tsx:92-93 | a missing or empty timestamp reads "Never viewed" |
| RecentMaterials.ShownMaterials | client/src/components/dashboard/RecentMaterialsWidget.tsx:139 | a prefix of at most three materials: all of them when there are three or fewer |
| RecentMaterials.CheckUpload | client/src/components/dashboard/RecentMaterialsWidget.tsx:38-58 | no file; otherwise a non-PDF is refused before the size check; otherwise a file above 25 MiB is refused; otherwise it is accepted |
| RecentMaterials.UploadSizeLimit | client/src/components/dashboard/RecentMaterialsWidget.tsx:51-58 | a PDF of exactly 25 MiB is accepted and one byte more is refused; a non-PDF is refused whatever its size |
| RecentMaterials.RecentMaterialsWidget.constructor | client/src/components/dashboard/RecentMaterialsWidget.tsx:23-25 | not uploading, progress 0, dialog closed |
| RecentMaterials.RecentMaterialsWidget.SetDialogOpen | client/src/components/dashboard/RecentMaterialsWidget.tsx:162 | the dialog is open exactly as asked, and nothing else changes |
| RecentMaterials.RecentMaterialsWidget.HandleFileUpload | client/src/components/dashboard/RecentMaterialsWidget.tsx:38-84 | a refused file is not uploaded and changes no state; an accepted one is uploaded, ends not uploading and showing the last reported progress, and on success closes the dialog |

## Left out

- Utils.CalculateProgress: computed on exact rationals. JavaScript divides floating-point numbers before `Math.round`, so results can differ at rounding boundaries.
- PdfViewing.ProgressOfPage: an exact integer floor of page * 100 / totalPages. The source floors a floating-point product, which can differ at boundaries.
- PdfViewing.PageOfProgress: likewise exact, where the source takes the ceiling of a floating-point product.
- PdfViewing.PdfViewer.HandleNextPage: with no pages yet and a page below 0, the source reports a non-finite or NaN value. The model reports nothing. The component never holds such a page.
- Utils.FormatStudyTimeRoundTrip: stated for non-negative minutes only. A negative count renders with JavaScript's truncating `%`, which `JsRem` models, but it has no read-back.
- Utils.TruncateText: lengths are counted in characters. JavaScript counts UTF-16 code units.
- Registration.Validate: the password's length is counted in characters, where `formData.password.length` (client/src/pages/Register.tsx:52) counts UTF-16 code units, so a password of astral characters can pass the check with fewer than six characters.
- Storage.MemStorage.GetMaterialsByUserId: `lastViewed` is a number here. The viewer PUTs it as an ISO string (client/src/pages/TextbookAnalyzer.tsx:105), `updateMaterial` stores that string, and the comparator's `.getTime()` then throws for a user with two or more materials, which the listing route answers with 400 (server/routes.ts:110-116). That failure is not modelled.
- Routes.ChatTranscriptExtends: a null free-text reply from OpenAI is stored as the empty string. The source stores `null`.
- Routes.CheckCard: a truthy question or answer that is not a string (a number, an object) is treated as a skipped card. The source would store it as it is.
- Routes.HandleRegister: the zod parse of the request body is not modelled. The body is taken as already well typed, and a parse error's 400 is not a path of the model.
- Request bodies that are ill-typed or hold `null` where a record field is expected are not modelled. Patches are typed with one optional value per field.
- The md5 hash and `Date.now` of `saveFile` are a given hash string. Creating the upload directory and writing the file are not modelled.
- The POST /api/materials handler is modelled only through its extension rule. The other routes (user profile, listings, summaries, study plan, AI status) are thin wrappers over the modelled storage and provider calls, and are not modelled.
- Storage.MemStorage.CreateConversation: a `messages` value that is not an array is modelled as an absent list, which the source turns into an empty one. Its element types are not checked.
- Console logging, the OpenAI and Gemini SDKs, the model names and `process.env` are not modelled. The services are parameters, and the configuration is two booleans.
- Concurrency: `async` and `Promise.all` are sequential here. Cards are created in array order, as the synchronous store does.
- RecentMaterials.FormatLastViewed: dates are put into words by a `describe` parameter. The date-fns formatting relative to the current time is not modelled.
- `getRandomColor` (random) and `cn` (a class-name library wrapper) in the client library are not modelled.
- Rendering, toasts, query refetches and cache invalidations, navigation after registration, and the viewer's timers are not modelled. The simulated load is the `FinishLoading` step.
- The FlashcardGenerator's form, its materials query and its request body are not modelled. The generation request's outcome is a parameter.
- The PDF uploader widget is not part of this model. Its file checks are the ones modelled for the recent-materials card.
- RecentMaterials.RecentMaterialsWidget.HandleFileUpload: the upload's outcome and its progress reports are parameters. A failed upload keeps the last reported progress, as the source does.
