// The decision logic of the HTTP handlers (server/routes.ts) over the
// in-memory store: which status a request gets, which store operations it
// triggers, and what the response carries. Request bodies arrive already
// decoded; an id field is the number `parseInt` makes of it (None when the
// field is missing). The AI calls go through the provider layer of module Ai,
// and each AI handler reports the requests it sent.
module Routes {
  import opened Wrappers
  import opened Schema
  import opened Seqs
  import opened Strings
  import opened Storage
  import opened Ai

  /** A user as the auth endpoints send it: every field but the password. */
  datatype PublicUser = PublicUser(
    id: int, username: string, name: string, email: string,
    level: int, xp: int, totalStudyTime: int, createdAt: int)

  /** The JSON body of a response. */
  datatype Body =
    | NoContent
    | Notice(message: string)
    | Failure(message: string, error: AIError)
    | UserBody(user: PublicUser)
    | MaterialBody(material: StudyMaterial)
    | SessionBody(session: StudySession)
    | ConversationBody(conversation: Conversation)
    | ChatBody(response: Option<string>, conversation: Conversation)
    | FlashcardsBody(flashcards: seq<Flashcard>)

  datatype Response = Response(status: int, body: Body)

  // ---- Auth ---------------------------------------------------------------------

  /** `const { password, ...userWithoutPassword } = user`. */
  function WithoutPassword(u: User): (r: PublicUser)
    ensures r.id == u.id && r.username == u.username && r.name == u.name && r.email == u.email
    ensures r.level == u.level && r.xp == u.xp && r.totalStudyTime == u.totalStudyTime && r.createdAt == u.createdAt
  {
    PublicUser(u.id, u.username, u.name, u.email, u.level, u.xp, u.totalStudyTime, u.createdAt)
  }

  /**
   * The public view depends on everything but the password: two users look
   * the same exactly when they differ at most in their passwords.
   */
  lemma WithoutPasswordForgetsOnlyPassword(u: User, v: User)
    ensures WithoutPassword(u) == WithoutPassword(v) <==> u.(password := v.password) == v
  {
    if WithoutPassword(u) == WithoutPassword(v) {
      assert u.id == WithoutPassword(u).id == WithoutPassword(v).id == v.id;
      assert u.username == WithoutPassword(u).username == WithoutPassword(v).username == v.username;
    }
  }

  /** No two stored users share a username. */
  ghost predicate UniqueUsernames(users: map<int, User>) {
    forall a, b :: a in users && b in users && users[a].username == users[b].username ==> a == b
  }

  /** The sample data holds a single user, so its usernames are unique. */
  lemma SeedUsernamesUnique(now: int)
    ensures UniqueUsernames(map[1 := SeedUser(now)])
  {
  }

  /**
   * POST /api/auth/register: a taken username is refused with 400 before
   * `createUser` runs, so the store is untouched; otherwise the user is
   * created and sent back without the password, with 201. Usernames stay
   * unique.
   */
  method HandleRegister(store: MemStorage, userData: InsertUser, now: int) returns (res: Response)
    requires store.Valid()
    modifies store`users, store`userId
    ensures store.Valid()
    ensures old(store.GetUserByUsername(userData.username)).Some? ==>
              res == Response(400, Notice("Username already exists")) && unchanged(store)
    ensures old(store.GetUserByUsername(userData.username)).None? ==>
              var u := User(old(store.userId), userData.username, userData.password, userData.name,
                            userData.email, 1, 0, 0, now);
              res == Response(201, UserBody(WithoutPassword(u))) &&
              store.users == old(store.users)[u.id := u] && store.userId == old(store.userId) + 1
    ensures UniqueUsernames(old(store.users)) ==> UniqueUsernames(store.users)
  {
    var existing := store.GetUserByUsername(userData.username);
    if existing.Some? {
      return Response(400, Notice("Username already exists"));
    }
    ghost var before := store.users;
    var user := store.CreateUser(userData, now);
    res := Response(201, UserBody(WithoutPassword(user)));
    assert forall k :: k in before ==> before[k].username != user.username;
  }

  /**
   * POST /api/auth/login: 401 "Invalid credentials" when no user has the
   * username or the first one that does has another password; otherwise 200
   * with that user, password removed. While usernames are unique, the login
   * succeeds exactly when some stored user has both the username and the
   * password.
   */
  method HandleLogin(store: MemStorage, username: string, password: string) returns (res: Response)
    requires store.Valid()
    ensures res.status == 401 || res.status == 200
    ensures res.status == 401 ==> res.body == Notice("Invalid credentials")
    ensures res.status == 200 ==>
              exists k :: k in store.users && store.users[k].username == username &&
                          store.users[k].password == password &&
                          res.body == UserBody(WithoutPassword(store.users[k]))
    ensures UniqueUsernames(store.users) ==>
              (res.status == 200 <==>
               exists k :: k in store.users && store.users[k].username == username &&
                           store.users[k].password == password)
  {
    var user := store.GetUserByUsername(username);
    if user.None? || user.value.password != password {
      res := Response(401, Notice("Invalid credentials"));
      if user.Some? && UniqueUsernames(store.users) {
        forall k | k in store.users && store.users[k].username == username
          ensures store.users[k].password != password
        {
          var j :| j in store.users && store.users[j] == user.value;
          assert j == k;
        }
      }
    } else {
      res := Response(200, UserBody(WithoutPassword(user.value)));
    }
  }

  // ---- Update and delete ----------------------------------------------------------
  // Each handler looks the id up first; an unknown id is answered with 404
  // and the store operation is never reached.

  /** PUT /api/materials/:id: 404 for an unknown id, else the merged material with 200. */
  method HandleUpdateMaterial(store: MemStorage, id: int, patch: MaterialPatch) returns (res: Response)
    requires store.Valid()
    modifies store`studyMaterials
    ensures store.Valid()
    ensures id !in old(store.studyMaterials) ==>
              res == Response(404, Notice("Material not found")) && unchanged(store)
    ensures id in old(store.studyMaterials) ==>
              var updated := MergeMaterial(old(store.studyMaterials)[id], patch);
              res == Response(200, MaterialBody(updated)) &&
              store.studyMaterials == old(store.studyMaterials)[id := updated]
  {
    var material := store.GetMaterial(id);
    if material.None? {
      return Response(404, Notice("Material not found"));
    }
    var updated := store.UpdateMaterial(id, patch);
    res := Response(200, MaterialBody(updated.value));
  }

  /** DELETE /api/materials/:id: 404 for an unknown id, else the material is removed, with 204. */
  method HandleDeleteMaterial(store: MemStorage, id: int) returns (res: Response)
    requires store.Valid()
    modifies store`studyMaterials
    ensures store.Valid()
    ensures id !in old(store.studyMaterials) ==>
              res == Response(404, Notice("Material not found")) && unchanged(store)
    ensures id in old(store.studyMaterials) ==>
              res == Response(204, NoContent) && store.studyMaterials == old(store.studyMaterials) - {id}
  {
    var material := store.GetMaterial(id);
    if material.None? {
      return Response(404, Notice("Material not found"));
    }
    var _ := store.DeleteMaterial(id);
    res := Response(204, NoContent);
  }

  /** PUT /api/sessions/:id: 404 for an unknown id, else the merged session with 200. */
  method HandleUpdateSession(store: MemStorage, id: int, patch: SessionPatch) returns (res: Response)
    requires store.Valid()
    modifies store`studySessions
    ensures store.Valid()
    ensures id !in old(store.studySessions) ==>
              res == Response(404, Notice("Study session not found")) && unchanged(store)
    ensures id in old(store.studySessions) ==>
              var updated := MergeSession(old(store.studySessions)[id], patch);
              res == Response(200, SessionBody(updated)) &&
              store.studySessions == old(store.studySessions)[id := updated]
  {
    var session := store.GetStudySession(id);
    if session.None? {
      return Response(404, Notice("Study session not found"));
    }
    var updated := store.UpdateStudySession(id, patch);
    res := Response(200, SessionBody(updated.value));
  }

  /** DELETE /api/sessions/:id: 404 for an unknown id, else the session is removed, with 204. */
  method HandleDeleteSession(store: MemStorage, id: int) returns (res: Response)
    requires store.Valid()
    modifies store`studySessions
    ensures store.Valid()
    ensures id !in old(store.studySessions) ==>
              res == Response(404, Notice("Study session not found")) && unchanged(store)
    ensures id in old(store.studySessions) ==>
              res == Response(204, NoContent) && store.studySessions == old(store.studySessions) - {id}
  {
    var session := store.GetStudySession(id);
    if session.None? {
      return Response(404, Notice("Study session not found"));
    }
    var _ := store.DeleteStudySession(id);
    res := Response(204, NoContent);
  }

  /** DELETE /api/flashcards/:id: 404 for an unknown id, else the card is removed, with 204. */
  method HandleDeleteFlashcard(store: MemStorage, id: int) returns (res: Response)
    requires store.Valid()
    modifies store`flashcards
    ensures store.Valid()
    ensures id !in old(store.flashcards) ==>
              res == Response(404, Notice("Flashcard not found")) && unchanged(store)
    ensures id in old(store.flashcards) ==>
              res == Response(204, NoContent) && store.flashcards == old(store.flashcards) - {id}
  {
    var flashcard := store.GetFlashcard(id);
    if flashcard.None? {
      return Response(404, Notice("Flashcard not found"));
    }
    var _ := store.DeleteFlashcard(id);
    res := Response(204, NoContent);
  }

  /** PUT /api/conversations/:id: 404 for an unknown id, else the message list is replaced, with 200. */
  method HandleUpdateConversation(store: MemStorage, id: int, messages: seq<Message>) returns (res: Response)
    requires store.Valid()
    modifies store`conversations
    ensures store.Valid()
    ensures id !in old(store.conversations) ==>
              res == Response(404, Notice("Conversation not found")) && unchanged(store)
    ensures id in old(store.conversations) ==>
              var updated := old(store.conversations)[id].(messages := messages);
              res == Response(200, ConversationBody(updated)) &&
              store.conversations == old(store.conversations)[id := updated]
  {
    var conversation := store.GetConversation(id);
    if conversation.None? {
      return Response(404, Notice("Conversation not found"));
    }
    var updated := store.UpdateConversation(id, messages);
    res := Response(200, ConversationBody(updated.value));
  }

  // ---- AI chat ------------------------------------------------------------------------

  const StudyAssistantPrompt :=
    "You are an AI study assistant helping students learn and understand complex topics. " +
    "Provide clear, concise explanations and be supportive."

  /** The messages sent to the model: the conversation so far, or the assistant prompt, then the user's message. */
  function ChatPrompt(existing: Option<Conversation>, message: string): (r: seq<Message>)
    ensures r != [] && r[|r| - 1] == Message("user", message)
    ensures existing.Some? ==> r[..|r| - 1] == existing.value.messages
    ensures existing.None? ==> r[..|r| - 1] == [Message("system", StudyAssistantPrompt)]
  {
    match existing
    case Some(c) => c.messages + [Message("user", message)]
    case None => [Message("system", StudyAssistantPrompt), Message("user", message)]
  }

  /** The stored conversation after a reply: the prompt, then the reply under the role "system". */
  function ChatTranscript(existing: Option<Conversation>, message: string, reply: Option<string>): (r: seq<Message>)
    ensures ChatPrompt(existing, message) <= r && |r| == |ChatPrompt(existing, message)| + 1
    ensures r[|r| - 1].role == "system"
    ensures reply.Some? ==> r[|r| - 1].content == reply.value
  {
    ChatPrompt(existing, message) + [Message("system", reply.GetOr(""))]
  }

  /**
   * A chat turn only ever appends: an existing conversation's messages are a
   * prefix of the new transcript, followed by exactly the user's message and
   * the reply; a new conversation opens with the assistant prompt.
   */
  lemma ChatTranscriptExtends(existing: Option<Conversation>, message: string, reply: Option<string>)
    ensures var t := ChatTranscript(existing, message, reply);
            |t| >= 2 && t[|t| - 2] == Message("user", message) && t[|t| - 1].role == "system" &&
            (reply.Some? ==> t[|t| - 1].content == reply.value) &&
            (existing.Some? ==> t[..|t| - 2] == existing.value.messages) &&
            (existing.None? ==> t[..|t| - 2] == [Message("system", StudyAssistantPrompt)])
  {
  }

  /**
   * The chat prompt is never empty and ends with the user's message, so the
   * Gemini fallback never meets an empty list and sends exactly that message.
   */
  lemma ChatPromptEndsWithMessage(existing: Option<Conversation>, message: string)
    ensures ChatPrompt(existing, message) != []
    ensures GeminiChatRequest(ChatPrompt(existing, message)).text == message
    ensures |GeminiChatRequest(ChatPrompt(existing, message)).history| == |ChatPrompt(existing, message)| - 1
  {
  }

  /** The conversation a chat request names, if it names one that exists. */
  function NamedConversation(conversations: map<int, Conversation>, conversationId: Option<int>): Option<Conversation> {
    if Truthy(conversationId) && conversationId.value in conversations
    then Some(conversations[conversationId.value]) else None
  }

  /**
   * POST /api/ai/chat. A missing user id or message is 400 and a named
   * conversation that does not exist is 404, both before any AI call. Then
   * the prompt goes to the provider layer: a failure is 500 with the store
   * untouched; a reply is 200 and the transcript is written back, into the
   * named conversation or into a new one for the user.
   */
  method HandleChat(store: MemStorage, b: Backends, userId: Option<int>, message: string,
                    conversationId: Option<int>, now: int)
    returns (res: Response, calls: seq<Call>)
    requires store.Valid()
    modifies store`conversations, store`conversationId
    ensures store.Valid()
    ensures |calls| <= 2
    ensures !Truthy(userId) || message == "" ==>
              res == Response(400, Notice("User ID and message are required")) && calls == [] && unchanged(store)
    ensures Truthy(userId) && message != "" && Truthy(conversationId) &&
            conversationId.value !in old(store.conversations) ==>
              res == Response(404, Notice("Conversation not found")) && calls == [] && unchanged(store)
    ensures res.status in {200, 400, 404, 500}
    ensures res.status == 500 ==>
              res.body.Failure? && res.body.message == "Failed to get AI response" && unchanged(store)
    ensures res.status == 500 && !HasAIServices(b.config) ==> res.body.error == Unconfigured(NoServiceMessage)
    ensures res.status in {200, 500} ==>
              var prompt := ChatPrompt(NamedConversation(old(store.conversations), conversationId), message);
              (b.config.hasOpenAIKey ==> calls != [] && calls[0] == ToOpenAI(OpenAIRequest(ToOpenAIFormat(prompt), false))) &&
              (CallsGemini(calls) ==> calls[|calls| - 1] == ToGemini(GeminiChatRequest(prompt)))
    ensures res.status == 200 ==>
              res.body.ChatBody? &&
              var existing := NamedConversation(old(store.conversations), conversationId);
              var transcript := ChatTranscript(existing, message, res.body.response);
              (existing.Some? ==>
                 res.body.conversation == existing.value.(messages := transcript) &&
                 store.conversations == old(store.conversations)[existing.value.id := res.body.conversation] &&
                 store.conversationId == old(store.conversationId)) &&
              (existing.None? ==>
                 res.body.conversation == Conversation(old(store.conversationId), userId.value, transcript, now) &&
                 store.conversations == old(store.conversations)[res.body.conversation.id := res.body.conversation] &&
                 store.conversationId == old(store.conversationId) + 1)
    ensures Truthy(userId) && message != "" &&
            (Truthy(conversationId) ==> conversationId.value in old(store.conversations)) ==>
              var reply := Completion(b, ChatPrompt(NamedConversation(old(store.conversations), conversationId), message));
              (res.status == 500 <==> reply.Err?) &&
              (reply.Err? ==> res.body.error == reply.error) &&
              (reply.Ok? ==> res.status == 200 && res.body.response == reply.value)
  {
    if !Truthy(userId) || message == "" {
      return Response(400, Notice("User ID and message are required")), [];
    }
    var existing: Option<Conversation> := None;
    if Truthy(conversationId) {
      existing := store.GetConversation(conversationId.value);
      if existing.None? {
        return Response(404, Notice("Conversation not found")), [];
      }
    }
    assert existing == NamedConversation(store.conversations, conversationId);
    var prompt := ChatPrompt(existing, message);
    var reply;
    reply, calls := ChatCompletion(b, prompt);
    if reply.Err? {
      return Response(500, Failure("Failed to get AI response", reply.error)), calls;
    }
    var transcript := ChatTranscript(existing, message, reply.value);
    match existing {
      case Some(c) =>
        var updated := store.UpdateConversation(c.id, transcript);
        res := Response(200, ChatBody(reply.value, updated.value));
      case None =>
        var created := store.CreateConversation(InsertConversation(userId.value, Some(transcript)), now);
        res := Response(200, ChatBody(reply.value, created));
    }
  }

  // ---- AI flashcards ----------------------------------------------------------------------

  /** A decoded JSON value, integers standing for numbers. */
  datatype Json =
    | JNull
    | JBool(truth: bool)
    | JNumber(number: int)
    | JString(text: string)
    | JArray(items: seq<Json>)
    | JObject(fields: map<string, Json>)

  /** What `card.question && card.answer` makes of one element of the generated array. */
  datatype CardCheck = Keep(question: string, answer: string) | Skip | Throws

  /** A non-empty string field of an object. */
  function TextField(fields: map<string, Json>, name: string): Option<string> {
    if name in fields && fields[name].JString? && fields[name].text != "" then Some(fields[name].text) else None
  }

  /**
   * Reading a property of null throws; an object with a non-empty question
   * and answer is kept; anything else reads as undefined and is skipped.
   */
  function CheckCard(card: Json): (r: CardCheck)
    ensures r.Keep? ==> r.question != "" && r.answer != ""
    ensures r.Throws? <==> card == JNull
  {
    match card
    case JNull => Throws
    case JObject(fields) =>
      if TextField(fields, "question").Some? && TextField(fields, "answer").Some?
      then Keep(TextField(fields, "question").value, TextField(fields, "answer").value)
      else Skip
    case _ => Skip
  }

  /** Some element of the array makes the per-card callback throw. */
  predicate AnyThrows(cards: seq<Json>) {
    exists i :: 0 <= i < |cards| && CheckCard(cards[i]).Throws?
  }

  /** The question and answer of every element that is kept, in array order. */
  function KeptCards(cards: seq<Json>): seq<(string, string)>
    decreases |cards|
  {
    if cards == [] then []
    else
      var init := KeptCards(cards[..|cards| - 1]);
      match CheckCard(cards[|cards| - 1])
      case Keep(q, a) => init + [(q, a)]
      case _ => init
  }

  /** Exactly the pairs of elements that pass the check are kept. */
  lemma {:induction false} KeptCardsAreThosePassing(cards: seq<Json>)
    ensures forall q, a :: (q, a) in KeptCards(cards) <==>
                           exists i :: 0 <= i < |cards| && CheckCard(cards[i]) == Keep(q, a)
    decreases |cards|
  {
    if cards != [] {
      var init := cards[..|cards| - 1];
      KeptCardsAreThosePassing(init);
      forall q, a ensures (q, a) in KeptCards(cards) <==>
                          exists i :: 0 <= i < |cards| && CheckCard(cards[i]) == Keep(q, a)
      {
        if (q, a) in KeptCards(cards) {
          if (q, a) in KeptCards(init) {
            var i :| 0 <= i < |init| && CheckCard(init[i]) == Keep(q, a);
            assert cards[i] == init[i];
          } else {
            assert CheckCard(cards[|cards| - 1]) == Keep(q, a);
          }
        }
        if exists i :: 0 <= i < |cards| && CheckCard(cards[i]) == Keep(q, a) {
          var i :| 0 <= i < |cards| && CheckCard(cards[i]) == Keep(q, a);
          if i < |init| {
            assert CheckCard(init[i]) == Keep(q, a);
          }
        }
      }
    }
  }

  /** No kept pair has an empty question or answer. */
  lemma {:induction false} KeptCardsFilled(cards: seq<Json>)
    ensures forall i :: 0 <= i < |KeptCards(cards)| ==> KeptCards(cards)[i].0 != "" && KeptCards(cards)[i].1 != ""
    decreases |cards|
  {
    if cards != [] {
      KeptCardsFilled(cards[..|cards| - 1]);
    }
  }

  /** Keeping distributes over concatenation. */
  lemma {:induction false} KeptCardsAppend(a: seq<Json>, b: seq<Json>)
    ensures KeptCards(a + b) == KeptCards(a) + KeptCards(b)
    decreases |b|
  {
    if b == [] {
      assert a + b == a;
    } else {
      var init := b[..|b| - 1];
      assert (a + b)[..|a + b| - 1] == a + init;
      KeptCardsAppend(a, init);
    }
  }

  /** The flashcards a run of kept pairs becomes: consecutive ids from firstId, in order. */
  function CardsFrom(kept: seq<(string, string)>, userId: int, materialId: Option<int>, firstId: int, now: int)
    : (r: seq<Flashcard>)
    ensures |r| == |kept|
  {
    seq(|kept|, i requires 0 <= i < |kept| =>
      Flashcard(firstId + i, userId, StoredMaterialId(materialId), kept[i].0, kept[i].1, now))
  }

  /** Looking at one more element keeps what was kept and adds that element's pair if it passes. */
  lemma KeptCardsStep(cards: seq<Json>, i: int)
    requires 0 <= i < |cards|
    ensures KeptCards(cards[..i + 1]) ==
            KeptCards(cards[..i]) + (match CheckCard(cards[i]) case Keep(q, a) => [(q, a)] case _ => [])
  {
    assert cards[..i + 1][..i] == cards[..i];
  }

  /** One more kept pair becomes one more card, with the next id. */
  lemma CardsFromStep(kept: seq<(string, string)>, p: (string, string), userId: int,
                      materialId: Option<int>, firstId: int, now: int)
    ensures CardsFrom(kept + [p], userId, materialId, firstId, now) ==
            CardsFrom(kept, userId, materialId, firstId, now) +
            [Flashcard(firstId + |kept|, userId, StoredMaterialId(materialId), p.0, p.1, now)]
  {
  }

  /**
   * The per-card callbacks: every element that passes the check is created in
   * array order, so the ids run consecutively from the counter; the rest are
   * passed over.
   */
  method SaveGeneratedCards(store: MemStorage, cards: seq<Json>, userId: int, materialId: Option<int>, now: int)
    returns (saved: seq<Flashcard>)
    requires store.Valid()
    modifies store`flashcards, store`flashcardId
    ensures store.Valid()
    ensures saved == CardsFrom(KeptCards(cards), userId, materialId, old(store.flashcardId), now)
    ensures store.flashcardId == old(store.flashcardId) + |saved|
    ensures store.flashcards == SetAll(old(store.flashcards), saved, FlashcardKey)
  {
    saved := [];
    var i := 0;
    while i < |cards|
      invariant 0 <= i <= |cards|
      invariant store.Valid()
      invariant saved == CardsFrom(KeptCards(cards[..i]), userId, materialId, old(store.flashcardId), now)
      invariant store.flashcardId == old(store.flashcardId) + |saved|
      invariant store.flashcards == SetAll(old(store.flashcards), saved, FlashcardKey)
    {
      KeptCardsStep(cards, i);
      match CheckCard(cards[i]) {
        case Keep(q, a) =>
          var card := store.CreateFlashcard(InsertFlashcard(userId, materialId, q, a), now);
          CardsFromStep(KeptCards(cards[..i]), (q, a), userId, materialId, old(store.flashcardId), now);
          assert (saved + [card])[..|saved|] == saved;
          saved := saved + [card];
        case _ =>
      }
      i := i + 1;
    }
    assert cards[..|cards|] == cards;
  }

  /** The flashcards array of a parsed completion, when it has one. */
  function GeneratedCards(data: Result<Json, AIError>): Option<seq<Json>> {
    match data
    case Ok(JObject(fields)) =>
      if "flashcards" in fields && fields["flashcards"].JArray? then Some(fields["flashcards"].items) else None
    case _ => None
  }

  const FlashcardsFormatNote :=
    ". Format the response as a JSON object with a 'flashcards' array of objects, each with 'question' and 'answer' fields."

  /** The request for cards; `count` is the already rendered value, 5 when the body has none. */
  function FlashcardsPrompt(count: Option<string>, topic: string): string {
    "Generate " + count.GetOr("5") + " flashcards for studying the topic: " + topic +
    FlashcardsFormatNote
  }

  const SummaryRequestLead := "Provide a concise summary of key concepts about: "

  function SummaryPrompt(topic: string): string {
    SummaryRequestLead + topic
  }

  /** The fallback card's question. */
  function FallbackQuestion(topic: string): string {
    "Key concepts about " + topic + "?"
  }

  /** The fallback card's answer: `summary || "Information about " + topic`. */
  function FallbackAnswer(summary: Option<string>, topic: string): (r: string)
    ensures r != ""
    ensures summary.Some? && summary.value != "" ==> r == summary.value
    ensures summary.None? || summary.value == "" ==> r == "Information about " + topic
  {
    match summary
    case Some(s) => if s != "" then s else "Information about " + topic
    case None => "Information about " + topic
  }

  /**
   * The fallback once the generated cards could not be used: one summary
   * request, then exactly one card from it; a failing summary is 500.
   */
  method SaveFallbackCard(store: MemStorage, b: Backends, userId: int, materialId: Option<int>, topic: string, now: int)
    returns (res: Response, calls: seq<Call>)
    requires store.Valid()
    modifies store`flashcards, store`flashcardId
    ensures store.Valid()
    ensures |calls| <= 2
    ensures res.status == 200 || res.status == 500
    ensures res.status == 500 ==>
              res.body.Failure? && res.body.message == "Failed to generate flashcards" && unchanged(store)
    ensures !HasAIServices(b.config) ==> res.status == 500 && calls == []
    ensures res.status == 200 ==>
              res.body.FlashcardsBody? && |res.body.flashcards| == 1 &&
              var card := res.body.flashcards[0];
              card.id == old(store.flashcardId) && card.userId == userId &&
              card.materialId == StoredMaterialId(materialId) &&
              card.question == FallbackQuestion(topic) && card.answer != "" && card.createdAt == now &&
              store.flashcards == old(store.flashcards)[card.id := card] &&
              store.flashcardId == old(store.flashcardId) + 1
    ensures res.status == 200 ==>
              AllStored(res.body.flashcards, store.flashcards, userId, old(store.flashcardId), store.flashcardId)
    ensures Grows(old(store.flashcards), store.flashcards, old(store.flashcardId), store.flashcardId)
    ensures b.config.hasOpenAIKey ==>
              calls != [] && calls[0] == ToOpenAI(OpenAIRequest([Message("user", SummaryPrompt(topic))], false))
    ensures var summary := Completion(b, [Message("user", SummaryPrompt(topic))]);
            (res.status == 200 <==> summary.Ok?) &&
            (summary.Err? ==> res.body.error == summary.error) &&
            (summary.Ok? ==> res.body.flashcards[0].answer == FallbackAnswer(summary.value, topic))
  {
    var summary;
    var request := [Message("user", SummaryPrompt(topic))];
    assert ToOpenAIFormat(request) == request;
    summary, calls := ChatCompletion(b, request);
    if summary.Err? {
      return Response(500, Failure("Failed to generate flashcards", summary.error)), calls;
    }
    var card := store.CreateFlashcard(
      InsertFlashcard(userId, materialId, FallbackQuestion(topic), FallbackAnswer(summary.value, topic)), now);
    res := Response(200, FlashcardsBody([card]));
  }

  /** Each listed card is stored under its id, has both fields, belongs to the user and has a new id. */
  ghost predicate AllStored(cards: seq<Flashcard>, table: map<int, Flashcard>, userId: int, lo: int, hi: int) {
    forall c :: c in cards ==>
      c.id in table && table[c.id] == c && c.question != "" && c.answer != "" &&
      c.userId == userId && lo <= c.id < hi
  }

  /** The table only gained entries, all under ids issued between lo and hi. */
  ghost predicate Grows(before: map<int, Flashcard>, after: map<int, Flashcard>, lo: int, hi: int) {
    && (forall k :: k in before ==> k in after && after[k] == before[k])
    && (forall k :: k in after && k !in before ==> lo <= k < hi)
  }

  /**
   * What the handler does with the parsed completion: when it has a
   * flashcards array, every element that passes the check is stored, and
   * when no element throws the response lists exactly those cards. In every
   * other case (no usable array, or a null element) one fallback card is made
   * from a summary; the cards already stored for the other elements stay.
   */
  method SaveFlashcardsOrFallback(store: MemStorage, b: Backends, data: Result<Json, AIError>,
                                  userId: int, materialId: Option<int>, topic: string, now: int)
    returns (res: Response, calls: seq<Call>)
    requires store.Valid()
    modifies store`flashcards, store`flashcardId
    ensures store.Valid()
    ensures |calls| <= 2
    ensures res.status == 200 || res.status == 500
    ensures res.status == 500 ==> res.body.Failure? && res.body.message == "Failed to generate flashcards"
    ensures GeneratedCards(data).Some? && !AnyThrows(GeneratedCards(data).value) ==>
              var saved := CardsFrom(KeptCards(GeneratedCards(data).value), userId, materialId, old(store.flashcardId), now);
              res == Response(200, FlashcardsBody(saved)) && calls == [] &&
              store.flashcards == SetAll(old(store.flashcards), saved, FlashcardKey) &&
              store.flashcardId == old(store.flashcardId) + |saved|
    ensures GeneratedCards(data).None? || AnyThrows(GeneratedCards(data).value) ==>
              var kept := if GeneratedCards(data).Some? then |KeptCards(GeneratedCards(data).value)| else 0;
              var summary := Completion(b, [Message("user", SummaryPrompt(topic))]);
              (res.status == 200 <==> summary.Ok?) &&
              (summary.Err? ==> res.body.error == summary.error &&
                                store.flashcardId == old(store.flashcardId) + kept) &&
              (summary.Ok? ==>
                 res.body.FlashcardsBody? && |res.body.flashcards| == 1 &&
                 res.body.flashcards[0].id == old(store.flashcardId) + kept &&
                 res.body.flashcards[0].question == FallbackQuestion(topic) &&
                 res.body.flashcards[0].answer == FallbackAnswer(summary.value, topic) &&
                 store.flashcardId == old(store.flashcardId) + kept + 1)
    ensures res.status == 200 ==>
              res.body.FlashcardsBody? &&
              AllStored(res.body.flashcards, store.flashcards, userId, old(store.flashcardId), store.flashcardId)
    ensures Grows(old(store.flashcards), store.flashcards, old(store.flashcardId), store.flashcardId)
  {
    var cards := GeneratedCards(data);
    if cards.Some? {
      var saved := SaveGeneratedCards(store, cards.value, userId, materialId, now);
      KeptCardsFilled(cards.value);
      CardsFromStored(old(store.flashcards), KeptCards(cards.value), userId, materialId, old(store.flashcardId), now);
      if !AnyThrows(cards.value) {
        return Response(200, FlashcardsBody(saved)), [];
      }
    }
    ghost var between := store.flashcards;
    ghost var mid := store.flashcardId;
    res, calls := SaveFallbackCard(store, b, userId, materialId, topic, now);
    GrowsTrans(old(store.flashcards), between, store.flashcards, old(store.flashcardId), mid, store.flashcardId);
    if res.status == 200 {
      AllStoredWiden(res.body.flashcards, store.flashcards, store.flashcards, userId,
                     mid, store.flashcardId, old(store.flashcardId), store.flashcardId);
    }
  }

  /**
   * POST /api/ai/flashcards. A missing user id or topic is 400 before any AI
   * call. Otherwise the model is asked for a JSON object holding the cards,
   * and its answer is saved, or replaced by the fallback card.
   */
  method HandleGenerateFlashcards(store: MemStorage, b: Backends, parse: string -> Option<Json>,
                                  userId: Option<int>, materialId: Option<int>, topic: string,
                                  count: Option<string>, now: int)
    returns (res: Response, calls: seq<Call>)
    requires store.Valid()
    modifies store`flashcards, store`flashcardId
    ensures store.Valid()
    ensures !Truthy(userId) || topic == "" ==>
              res == Response(400, Notice("User ID and topic are required")) && calls == [] && unchanged(store)
    ensures |calls| <= 4
    ensures Truthy(userId) && topic != "" && b.config.hasOpenAIKey ==>
              calls != [] &&
              calls[0] == ToOpenAI(OpenAIRequest(ToOpenAIFormat([Message("user", FlashcardsPrompt(count, topic))]), true))
    ensures res.status == 500 ==> res.body.Failure? && res.body.message == "Failed to generate flashcards"
    ensures res.status == 200 ==>
              res.body.FlashcardsBody? &&
              AllStored(res.body.flashcards, store.flashcards, userId.value, old(store.flashcardId), store.flashcardId)
    ensures Grows(old(store.flashcards), store.flashcards, old(store.flashcardId), store.flashcardId)
    ensures Truthy(userId) && topic != "" ==>
              var data := JsonCompletion(b, parse, [Message("user", FlashcardsPrompt(count, topic))]);
              var mid := if Truthy(materialId) then materialId else None;
              (GeneratedCards(data).Some? && !AnyThrows(GeneratedCards(data).value) ==>
                 var saved := CardsFrom(KeptCards(GeneratedCards(data).value), userId.value, mid, old(store.flashcardId), now);
                 res == Response(200, FlashcardsBody(saved)) &&
                 store.flashcards == SetAll(old(store.flashcards), saved, FlashcardKey) &&
                 store.flashcardId == old(store.flashcardId) + |saved|) &&
              (GeneratedCards(data).None? || AnyThrows(GeneratedCards(data).value) ==>
                 var kept := if GeneratedCards(data).Some? then |KeptCards(GeneratedCards(data).value)| else 0;
                 var summary := Completion(b, [Message("user", SummaryPrompt(topic))]);
                 (res.status == 200 <==> summary.Ok?) &&
                 (summary.Err? ==> res.status == 500 && res.body.Failure? && res.body.error == summary.error &&
                                   store.flashcardId == old(store.flashcardId) + kept) &&
                 (summary.Ok? ==>
                    res.body.FlashcardsBody? && |res.body.flashcards| == 1 &&
                    res.body.flashcards[0].id == old(store.flashcardId) + kept &&
                    res.body.flashcards[0].question == FallbackQuestion(topic) &&
                    res.body.flashcards[0].answer == FallbackAnswer(summary.value, topic) &&
                    store.flashcardId == old(store.flashcardId) + kept + 1))
  {
    if !Truthy(userId) || topic == "" {
      return Response(400, Notice("User ID and topic are required")), [];
    }
    var mid := if Truthy(materialId) then materialId else None;
    var request := [Message("user", FlashcardsPrompt(count, topic))];
    var data, more;
    data, calls := ChatCompletionJSON(b, parse, request);
    ghost var asked := calls;
    res, more := SaveFlashcardsOrFallback(store, b, data, userId.value, mid, topic, now);
    calls := calls + more;
    assert asked != [] ==> calls[0] == asked[0];
  }

  /**
   * Cards with consecutive ids from a counter that is above every stored id:
   * setting them keeps every old entry, and each card sits at its own id.
   */
  lemma {:induction false} SavedCardsStored(m: map<int, Flashcard>, saved: seq<Flashcard>, userId: int, firstId: int)
    requires forall k :: k in m ==> k < firstId
    requires forall i :: 0 <= i < |saved| ==>
               saved[i].id == firstId + i && saved[i].userId == userId &&
               saved[i].question != "" && saved[i].answer != ""
    ensures AllStored(saved, SetAll(m, saved, FlashcardKey), userId, firstId, firstId + |saved|)
    ensures Grows(m, SetAll(m, saved, FlashcardKey), firstId, firstId + |saved|)
    decreases |saved|
  {
    if saved != [] {
      var init := saved[..|saved| - 1];
      SavedCardsStored(m, init, userId, firstId);
      var r := SetAll(m, saved, FlashcardKey);
      forall c | c in saved
        ensures c.id in r && r[c.id] == c && c.question != "" && c.answer != "" &&
                c.userId == userId && firstId <= c.id < firstId + |saved|
      {
        if c != saved[|saved| - 1] {
          assert c in init;
        }
      }
    }
  }

  /** The cards made from kept pairs, set into a table whose ids are all below the first new one. */
  lemma CardsFromStored(m: map<int, Flashcard>, kept: seq<(string, string)>, userId: int,
                        materialId: Option<int>, firstId: int, now: int)
    requires forall k :: k in m ==> k < firstId
    requires forall i :: 0 <= i < |kept| ==> kept[i].0 != "" && kept[i].1 != ""
    ensures var saved := CardsFrom(kept, userId, materialId, firstId, now);
            AllStored(saved, SetAll(m, saved, FlashcardKey), userId, firstId, firstId + |saved|) &&
            Grows(m, SetAll(m, saved, FlashcardKey), firstId, firstId + |saved|)
  {
    SavedCardsStored(m, CardsFrom(kept, userId, materialId, firstId, now), userId, firstId);
  }

  /** Growing twice is growing once over the joined id range. */
  lemma GrowsTrans(a: map<int, Flashcard>, b: map<int, Flashcard>, c: map<int, Flashcard>, lo: int, mid: int, hi: int)
    requires lo <= mid <= hi
    requires Grows(a, b, lo, mid) && Grows(b, c, mid, hi)
    ensures Grows(a, c, lo, hi)
  {
    forall k | k in c && k !in a ensures lo <= k < hi {
      if k in b {
        assert lo <= k < mid;
      }
    }
  }

  /** Cards stored in a table stay stored once it grows, with the id range widened. */
  lemma AllStoredWiden(cards: seq<Flashcard>, t: map<int, Flashcard>, t': map<int, Flashcard>,
                       userId: int, lo: int, hi: int, lo': int, hi': int)
    requires AllStored(cards, t, userId, lo, hi) && Grows(t, t', hi, hi')
    requires lo' <= lo && hi <= hi'
    ensures AllStored(cards, t', userId, lo', hi')
  {
  }

  // ---- Upload ----------------------------------------------------------------------------

  /**
   * The extension `saveFile` gives the stored file: the text after the last
   * '.', the whole name when it has no '.', and "pdf" when that text is empty.
   */
  function UploadExtension(name: string): (r: string)
    ensures r != "" && '.' !in r
    ensures '.' !in name && name != "" ==> r == name
    ensures name == [] || name[|name| - 1] == '.' ==> r == "pdf"
    ensures r != "pdf" ==> |r| <= |name| && r == name[|name| - |r|..] &&
                           (|r| < |name| ==> name[|name| - |r| - 1] == '.')
  {
    var last := AfterLast(name, '.');
    if last == "" then "pdf" else last
  }

  /** A name ending in "." and a dot-free, non-empty extension keeps that extension. */
  lemma UploadExtensionOfDotted(base: string, ext: string)
    requires ext != "" && '.' !in ext
    ensures UploadExtension(base + "." + ext) == ext
  {
    var name := base + "." + ext;
    var r := UploadExtension(name);
    assert name[|base|] == '.';
    if r != "pdf" || |r| != |ext| {
      assert '.' in name;
    }
    var i := LastIndexOf(name, '.');
    assert name[i + 1..] == ext;
  }

  /** The path the upload is served from: `/uploads/<hash>.<extension>`. */
  function StoredPath(hash: string, name: string): (r: string)
    ensures "/uploads/" + hash + "." <= r
    ensures var ext := r[|"/uploads/" + hash + "."|..]; ext != "" && '.' !in ext
  {
    "/uploads/" + hash + "." + UploadExtension(name)
  }

  /** The stored path has the upload's extension. */
  lemma StoredPathKeepsExtension(hash: string, name: string)
    ensures UploadExtension(StoredPath(hash, name)) == UploadExtension(name)
  {
    assert StoredPath(hash, name) == ("/uploads/" + hash) + "." + UploadExtension(name);
    UploadExtensionOfDotted("/uploads/" + hash, UploadExtension(name));
  }
}
