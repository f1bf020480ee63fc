// The in-memory repository `MemStorage` (server/storage.ts): eight tables,
// each a map from id to record, and eight id counters that every create
// post-increments. The clock is a parameter: `now` is the instant at which a
// create stamps `createdAt` (or `earnedAt`), and the seeding constructor also
// receives the local midnights of today and tomorrow.
module Storage {
  import opened Wrappers
  import opened Schema
  import opened Seqs

  const Minute := 60 * 1000
  const Hour := 60 * Minute
  const Day := 24 * Hour

  /** Every key of a table was issued by its counter, which starts at 1 and only grows. */
  ghost predicate KeysIssued<T>(m: map<int, T>, next: int) {
    1 <= next && forall k :: k in m ==> 1 <= k < next
  }

  // Sort keys of the listings. A material never viewed sorts as 0
  // (`lastViewed?.getTime() || 0`); the descending orders sort by the negation.

  function LastViewedKey(m: StudyMaterial): int {
    match m.lastViewed
    case Some(t) => t
    case None => 0
  }

  function NegLastViewedKey(m: StudyMaterial): int { -LastViewedKey(m) }

  function StartTimeKey(s: StudySession): int { s.startTime }

  function NegCreatedAtKey(c: Conversation): int { -c.createdAt }

  function CreatedAtKey(c: Conversation): int { c.createdAt }

  function BadgeKey(b: Badge): int { b.id }
  function UserBadgeKey(b: UserBadge): int { b.id }
  function MaterialKey(m: StudyMaterial): int { m.id }
  function SessionKey(s: StudySession): int { s.id }
  function FlashcardKey(f: Flashcard): int { f.id }

  /** The material id a new flashcard keeps: a missing or 0 id (falsy) is stored as null. */
  function StoredMaterialId(mid: Option<int>): (r: Option<int>)
    ensures r != Some(0)
    ensures mid != Some(0) ==> r == mid
    ensures mid == Some(0) ==> r == None
  {
    if mid == Some(0) then None else mid
  }

  // The fixture rows of `initializeSampleData`.

  function SeedUser(now: int): User {
    User(1, "alex", "password123", "Alex Johnson", "alex@example.com", 5, 2500, 750, now)
  }

  function SeedBadges(): map<int, Badge> {
    map[1 := Badge(1, "Quick Learner", "Completed 10 study sessions", "bolt", "10 study sessions"),
        2 := Badge(2, "Consistent", "Studied for 7 days in a row", "calendar_today", "7 day streak"),
        3 := Badge(3, "Note Master", "Created 50 flashcards", "edit_note", "50 flashcards")]
  }

  function SeedUserBadges(now: int): map<int, UserBadge> {
    map[1 := UserBadge(1, 1, 1, now), 2 := UserBadge(2, 1, 2, now), 3 := UserBadge(3, 1, 3, now)]
  }

  function SeedMaterials(now: int): map<int, StudyMaterial> {
    map[1 := StudyMaterial(1, 1, "Introduction to Psychology.pdf",
                           Some("Comprehensive introduction to psychology concepts"), "pdf",
                           "/uploads/psychology_intro.pdf", 75, Some(now - 2 * Hour), now - 7 * Day),
        2 := StudyMaterial(2, 1, "Data Structures & Algorithms.pdf",
                           Some("Computer science fundamentals"), "pdf",
                           "/uploads/dsa.pdf", 40, Some(now - Day), now - 14 * Day),
        3 := StudyMaterial(3, 1, "Organic Chemistry Notes.pdf",
                           Some("Collection of organic chemistry notes"), "pdf",
                           "/uploads/organic_chem.pdf", 25, Some(now - 3 * Day), now - 21 * Day)]
  }

  function SeedSessions(today: int, tomorrow: int): map<int, StudySession> {
    map[1 := StudySession(1, 1, "Data Structures & Algorithms", "Computer Science",
                          today + 10 * Hour, today + 11 * Hour + 30 * Minute, false, today - Day),
        2 := StudySession(2, 1, "Psychology Exam Prep", "Psychology",
                          today + 14 * Hour, today + 16 * Hour, false, today - Day),
        3 := StudySession(3, 1, "Organic Chemistry Review", "Chemistry",
                          tomorrow + 9 * Hour + 30 * Minute, tomorrow + 11 * Hour, false, today - Day)]
  }

  const SampleQuestion := "What are the key components of a neural network?"
  const SampleAnswer :=
    "A neural network consists of: neurons (nodes), connections (weights), "
    + "activation functions, and input, hidden, and output layers."

  function SeedFlashcards(now: int): map<int, Flashcard> {
    map[1 := Flashcard(1, 1, Some(1), SampleQuestion, SampleAnswer, now - 3 * Day)]
  }

  /** The opening exchange of the sample conversation. */
  const SampleMessages: seq<Message> := [
    Message("system", "Hi Alex! I'm your AI Study Buddy. How can I help with your studies today?"),
    Message("user", "Can you explain the concept of neural networks in simple terms?"),
    Message("system",
      "Think of neural networks like a team of friends solving a puzzle:\n"
      + "1. Each friend (neuron) specializes in spotting certain patterns\n"
      + "2. They pass information to each other through connections\n"
      + "3. When they make mistakes, they learn and adjust\n"
      + "4. With practice, the team gets better at solving similar puzzles\n\n"
      + "Just like your brain learns by strengthening connections between neurons, "
      + "artificial neural networks learn by adjusting the strength of connections between digital neurons.\n\n"
      + "Would you like me to explain any specific part in more detail?")
  ]

  function SeedConversations(now: int): map<int, Conversation> {
    map[1 := Conversation(1, 1, SampleMessages, now - 30 * Minute)]
  }

  // The fixture tables hold exactly the ids their counters issued.

  lemma SeedProfileIssued(now: int)
    ensures KeysIssued(map[1 := SeedUser(now)], 2)
    ensures KeysIssued(SeedBadges(), 4) && KeysIssued(SeedUserBadges(now), 4)
  {
  }

  lemma SeedMaterialsIssued(now: int)
    ensures KeysIssued(SeedMaterials(now), 4)
  {
  }

  lemma SeedSessionsIssued(today: int, tomorrow: int)
    ensures KeysIssued(SeedSessions(today, tomorrow), 4)
  {
  }

  lemma SeedFlashcardsIssued(now: int)
    ensures KeysIssued(SeedFlashcards(now), 2)
  {
  }

  lemma SeedConversationsIssued(now: int)
    ensures KeysIssued(SeedConversations(now), 2)
    ensures forall k :: k in SeedConversations(now) ==> SeedConversations(now)[k].id == k
  {
  }

  // The tests the listings filter by, named so that a listing and its
  // contract speak of the same predicate.

  function MaterialOwnedBy(uid: int): StudyMaterial -> bool {
    (m: StudyMaterial) => m.userId == uid
  }

  function SessionOwnedBy(uid: int): StudySession -> bool {
    (s: StudySession) => s.userId == uid
  }

  /** A session of the user that starts at or after now and is not completed. */
  function UpcomingFor(uid: int, now: int): StudySession -> bool {
    (s: StudySession) => s.userId == uid && s.startTime >= now && !s.isCompleted
  }

  function SummaryOfMaterial(mid: int): MaterialSummary -> bool {
    (s: MaterialSummary) => s.materialId == mid
  }

  function CardOwnedBy(uid: int): Flashcard -> bool {
    (f: Flashcard) => f.userId == uid
  }

  /** A card of the material; a card without material never matches. */
  function CardOfMaterial(mid: int): Flashcard -> bool {
    (f: Flashcard) => f.materialId == Some(mid)
  }

  function ConversationOwnedBy(uid: int): Conversation -> bool {
    (c: Conversation) => c.userId == uid
  }

  predicate AnyBadge(b: Badge) {
    true
  }

  /** Whether some row of `rows` gives the badge to the user. */
  function EarnedBy(rows: set<UserBadge>, uid: int): Badge -> bool {
    (b: Badge) => exists ub :: ub in rows && ub.userId == uid && ub.badgeId == b.id
  }

  /** `rows.map(userBadge => userBadge.badgeId)`. */
  function BadgeIds(rows: seq<UserBadge>): (r: seq<int>)
    ensures |r| == |rows|
    ensures forall b :: b in r <==> exists ub :: ub in rows && ub.badgeId == b
  {
    if rows == [] then []
    else
      var rest := BadgeIds(rows[1..]);
      assert forall ub :: ub in rows <==> ub == rows[0] || ub in rows[1..];
      [rows[0].badgeId] + rest
  }

  class MemStorage {
    var users: map<int, User>
    var studyMaterials: map<int, StudyMaterial>
    var studySessions: map<int, StudySession>
    var materialSummaries: map<int, MaterialSummary>
    var flashcards: map<int, Flashcard>
    var conversations: map<int, Conversation>
    var badges: map<int, Badge>
    var userBadges: map<int, UserBadge>

    var userId: int
    var materialId: int
    var sessionId: int
    var summaryId: int
    var flashcardId: int
    var conversationId: int
    var badgeId: int
    var userBadgeId: int

    /**
     * Each table's keys were issued by its own counter: a new id is above every
     * key. A conversation is never patched, so it keeps the id it is stored under.
     */
    ghost predicate Valid()
      reads this
    {
      && (forall k :: k in conversations ==> conversations[k].id == k)
      && KeysIssued(users, userId)
      && KeysIssued(studyMaterials, materialId)
      && KeysIssued(studySessions, sessionId)
      && KeysIssued(materialSummaries, summaryId)
      && KeysIssued(flashcards, flashcardId)
      && KeysIssued(conversations, conversationId)
      && KeysIssued(badges, badgeId)
      && KeysIssued(userBadges, userBadgeId)
    }

    /** The store seeded with the fixture rows; every counter stands past the rows it issued. */
    constructor (now: int, today: int, tomorrow: int)
      ensures Valid()
      ensures users == map[1 := SeedUser(now)]
      ensures badges == SeedBadges() && userBadges == SeedUserBadges(now)
      ensures studyMaterials == SeedMaterials(now)
      ensures studySessions == SeedSessions(today, tomorrow)
      ensures materialSummaries == map[]
      ensures flashcards == SeedFlashcards(now)
      ensures conversations == SeedConversations(now)
      ensures userId == 2 && badgeId == 4 && userBadgeId == 4 && materialId == 4
      ensures sessionId == 4 && summaryId == 1 && flashcardId == 2 && conversationId == 2
    {
      users, studyMaterials, studySessions, materialSummaries := map[], map[], map[], map[];
      flashcards, conversations, badges, userBadges := map[], map[], map[], map[];
      userId, materialId, sessionId, summaryId := 1, 1, 1, 1;
      flashcardId, conversationId, badgeId, userBadgeId := 1, 1, 1, 1;
      new;
      InitializeSampleData(now, today, tomorrow);
    }

    /** `initializeSampleData`: every fixture row takes the next id of its table. */
    method InitializeSampleData(now: int, today: int, tomorrow: int)
      requires users == map[] && studyMaterials == map[] && studySessions == map[]
      requires materialSummaries == map[] && flashcards == map[] && conversations == map[]
      requires badges == map[] && userBadges == map[]
      requires userId == 1 && materialId == 1 && sessionId == 1 && summaryId == 1
      requires flashcardId == 1 && conversationId == 1 && badgeId == 1 && userBadgeId == 1
      modifies this
      ensures Valid()
      ensures users == map[1 := SeedUser(now)]
      ensures badges == SeedBadges() && userBadges == SeedUserBadges(now)
      ensures studyMaterials == SeedMaterials(now)
      ensures studySessions == SeedSessions(today, tomorrow)
      ensures materialSummaries == map[]
      ensures flashcards == SeedFlashcards(now)
      ensures conversations == SeedConversations(now)
      ensures userId == 2 && badgeId == 4 && userBadgeId == 4 && materialId == 4
      ensures sessionId == 4 && summaryId == 1 && flashcardId == 2 && conversationId == 2
    {
      var user := SeedSampleProfile(now);
      SeedSampleStudyData(user.id, now, today, tomorrow);
      SeedProfileIssued(now);
      SeedMaterialsIssued(now);
      SeedSessionsIssued(today, tomorrow);
      SeedFlashcardsIssued(now);
      SeedConversationsIssued(now);
    }

    /** The sample user, the badge catalogue and the user's badges. */
    method SeedSampleProfile(now: int) returns (user: User)
      requires users == map[] && badges == map[] && userBadges == map[]
      requires userId == 1 && badgeId == 1 && userBadgeId == 1
      modifies this`users, this`userId, this`badges, this`badgeId, this`userBadges, this`userBadgeId
      ensures user == SeedUser(now) && users == map[1 := user]
      ensures badges == SeedBadges() && userBadges == SeedUserBadges(now)
      ensures userId == 2 && badgeId == 4 && userBadgeId == 4
    {
      user := SeedSampleUser(now);
      var catalogue := SeedSampleBadges();
      SeedSampleUserBadges(user.id, catalogue, now);
    }

    /** The sample user's materials, sessions, flashcard and conversation. */
    method SeedSampleStudyData(uid: int, now: int, today: int, tomorrow: int)
      requires uid == 1
      requires studyMaterials == map[] && studySessions == map[] && flashcards == map[] && conversations == map[]
      requires materialId == 1 && sessionId == 1 && flashcardId == 1 && conversationId == 1
      modifies this`studyMaterials, this`materialId, this`studySessions, this`sessionId
      modifies this`flashcards, this`flashcardId, this`conversations, this`conversationId
      ensures studyMaterials == SeedMaterials(now) && studySessions == SeedSessions(today, tomorrow)
      ensures flashcards == SeedFlashcards(now) && conversations == SeedConversations(now)
      ensures materialId == 4 && sessionId == 4 && flashcardId == 2 && conversationId == 2
    {
      SeedSampleMaterials(uid, now);
      SeedSampleSessions(uid, today, tomorrow);
      SeedSampleFlashcards(uid, now);
      SeedSampleConversations(uid, now);
    }

    method SeedSampleUser(now: int) returns (user: User)
      requires users == map[] && userId == 1
      modifies this`users, this`userId
      ensures user == SeedUser(now) && users == map[1 := user] && userId == 2
    {
      user := SeedUser(now).(id := userId);
      userId := userId + 1;
      users := users[user.id := user];
    }

    method SeedSampleBadges() returns (catalogue: seq<Badge>)
      requires badges == map[] && badgeId == 1
      modifies this`badges, this`badgeId
      ensures badges == SeedBadges() && badgeId == 4
      ensures catalogue == [SeedBadges()[1], SeedBadges()[2], SeedBadges()[3]]
    {
      var b1 := Badge(badgeId, "Quick Learner", "Completed 10 study sessions", "bolt", "10 study sessions");
      badgeId := badgeId + 1;
      var b2 := Badge(badgeId, "Consistent", "Studied for 7 days in a row", "calendar_today", "7 day streak");
      badgeId := badgeId + 1;
      var b3 := Badge(badgeId, "Note Master", "Created 50 flashcards", "edit_note", "50 flashcards");
      badgeId := badgeId + 1;
      catalogue := [b1, b2, b3];
      PutBadges(catalogue);
      SetAllThree(map[], b1, b2, b3, BadgeKey);
    }

    /** Every catalogue badge is earned by the sample user. */
    method SeedSampleUserBadges(uid: int, catalogue: seq<Badge>, now: int)
      requires userBadges == map[] && userBadgeId == 1 && uid == 1
      requires catalogue == [SeedBadges()[1], SeedBadges()[2], SeedBadges()[3]]
      modifies this`userBadges, this`userBadgeId
      ensures userBadges == SeedUserBadges(now) && userBadgeId == 4
    {
      assert |catalogue| == 3 && catalogue[0].id == 1 && catalogue[1].id == 2 && catalogue[2].id == 3;
      var earned: seq<UserBadge> := [];
      var i := 0;
      while i < |catalogue|
        invariant 0 <= i <= |catalogue| && userBadgeId == 1 + i && userBadges == map[]
        invariant |earned| == i
        invariant forall j :: 0 <= j < i ==> earned[j] == UserBadge(1 + j, uid, catalogue[j].id, now)
      {
        earned := earned + [UserBadge(userBadgeId, uid, catalogue[i].id, now)];
        userBadgeId := userBadgeId + 1;
        i := i + 1;
      }
      PutUserBadges(earned);
      assert earned == [UserBadge(1, 1, 1, now), UserBadge(2, 1, 2, now), UserBadge(3, 1, 3, now)];
      SetAllThree(map[], earned[0], earned[1], earned[2], UserBadgeKey);
      assert map[][1 := earned[0]][2 := earned[1]][3 := earned[2]] == SeedUserBadges(now);
    }

    method SeedSampleMaterials(uid: int, now: int)
      requires studyMaterials == map[] && materialId == 1 && uid == 1
      modifies this`studyMaterials, this`materialId
      ensures studyMaterials == SeedMaterials(now) && materialId == 4
    {
      var m1 := SeedMaterials(now)[1].(id := materialId, userId := uid);
      materialId := materialId + 1;
      var m2 := SeedMaterials(now)[2].(id := materialId, userId := uid);
      materialId := materialId + 1;
      var m3 := SeedMaterials(now)[3].(id := materialId, userId := uid);
      materialId := materialId + 1;
      PutMaterials([m1, m2, m3]);
      SetAllThree(map[], m1, m2, m3, MaterialKey);
    }

    method SeedSampleSessions(uid: int, today: int, tomorrow: int)
      requires studySessions == map[] && sessionId == 1 && uid == 1
      modifies this`studySessions, this`sessionId
      ensures studySessions == SeedSessions(today, tomorrow) && sessionId == 4
    {
      var s1 := SeedSessions(today, tomorrow)[1].(id := sessionId, userId := uid);
      sessionId := sessionId + 1;
      var s2 := SeedSessions(today, tomorrow)[2].(id := sessionId, userId := uid);
      sessionId := sessionId + 1;
      var s3 := SeedSessions(today, tomorrow)[3].(id := sessionId, userId := uid);
      sessionId := sessionId + 1;
      PutSessions([s1, s2, s3]);
      SetAllThree(map[], s1, s2, s3, SessionKey);
    }

    method SeedSampleFlashcards(uid: int, now: int)
      requires flashcards == map[] && flashcardId == 1 && uid == 1
      modifies this`flashcards, this`flashcardId
      ensures flashcards == SeedFlashcards(now) && flashcardId == 2
    {
      var flashcard := SeedFlashcards(now)[1].(id := flashcardId, userId := uid);
      flashcardId := flashcardId + 1;
      flashcards := flashcards[flashcard.id := flashcard];
    }

    method SeedSampleConversations(uid: int, now: int)
      requires conversations == map[] && conversationId == 1 && uid == 1
      modifies this`conversations, this`conversationId
      ensures conversations == SeedConversations(now) && conversationId == 2
    {
      var conversation := Conversation(conversationId, uid, SampleMessages, now - 30 * Minute);
      conversationId := conversationId + 1;
      conversations := conversations[conversation.id := conversation];
    }

    /** `rows.forEach(r => badges.set(r.id, r))`. */
    method PutBadges(rows: seq<Badge>)
      modifies this`badges
      ensures badges == SetAll(old(badges), rows, BadgeKey)
    {
      var i := 0;
      while i < |rows|
        invariant 0 <= i <= |rows|
        invariant badges == SetAll(old(badges), rows[..i], BadgeKey)
      {
        assert rows[..i + 1][..i] == rows[..i];
        badges := badges[rows[i].id := rows[i]];
        i := i + 1;
      }
      assert rows[..|rows|] == rows;
    }

    /** `rows.forEach(r => userBadges.set(r.id, r))`. */
    method PutUserBadges(rows: seq<UserBadge>)
      modifies this`userBadges
      ensures userBadges == SetAll(old(userBadges), rows, UserBadgeKey)
    {
      var i := 0;
      while i < |rows|
        invariant 0 <= i <= |rows|
        invariant userBadges == SetAll(old(userBadges), rows[..i], UserBadgeKey)
      {
        assert rows[..i + 1][..i] == rows[..i];
        userBadges := userBadges[rows[i].id := rows[i]];
        i := i + 1;
      }
      assert rows[..|rows|] == rows;
    }

    /** `rows.forEach(r => studyMaterials.set(r.id, r))`. */
    method PutMaterials(rows: seq<StudyMaterial>)
      modifies this`studyMaterials
      ensures studyMaterials == SetAll(old(studyMaterials), rows, MaterialKey)
    {
      var i := 0;
      while i < |rows|
        invariant 0 <= i <= |rows|
        invariant studyMaterials == SetAll(old(studyMaterials), rows[..i], MaterialKey)
      {
        assert rows[..i + 1][..i] == rows[..i];
        studyMaterials := studyMaterials[rows[i].id := rows[i]];
        i := i + 1;
      }
      assert rows[..|rows|] == rows;
    }

    /** `rows.forEach(r => studySessions.set(r.id, r))`. */
    method PutSessions(rows: seq<StudySession>)
      modifies this`studySessions
      ensures studySessions == SetAll(old(studySessions), rows, SessionKey)
    {
      var i := 0;
      while i < |rows|
        invariant 0 <= i <= |rows|
        invariant studySessions == SetAll(old(studySessions), rows[..i], SessionKey)
      {
        assert rows[..i + 1][..i] == rows[..i];
        studySessions := studySessions[rows[i].id := rows[i]];
        i := i + 1;
      }
      assert rows[..|rows|] == rows;
    }

    // ---- Users -------------------------------------------------------------

    /** `getUser`: the record stored under id, undefined when there is none. */
    function GetUser(id: int): (r: Option<User>)
      reads this
      ensures r.Some? <==> id in users
      ensures r.Some? ==> r.value == users[id]
    {
      if id in users then Some(users[id]) else None
    }

    /** `getUserByUsername`: the first user, in insertion order, with that username. */
    function GetUserByUsername(username: string): (r: Option<User>)
      reads this
      requires Valid()
      ensures r.None? <==> forall k :: k in users ==> users[k].username != username
      ensures r.Some? ==> exists k :: k in users && users[k] == r.value && r.value.username == username &&
                            forall j :: j in users && j < k ==> users[j].username != username
    {
      var all := InKeyOrder(users, 1, userId);
      var r := FirstMatch(all, (u: User) => u.username == username);
      assert r.None? <==> forall k :: k in users ==> users[k].username != username by {
        if r.None? {
          forall k | k in users ensures users[k].username != username {
            assert users[k] in all;
          }
        } else {
          var i :| 0 <= i < |all| && all[i] == r.value && r.value.username == username;
          assert all[i] in all;
        }
      }
      assert r.Some? ==> exists k :: k in users && users[k] == r.value && r.value.username == username &&
                            forall j :: j in users && j < k ==> users[j].username != username by {
        if r.Some? {
          FirstMatchInKeyOrder(users, 1, userId, (u: User) => u.username == username);
        }
      }
      r
    }

    /** `createUser`: the next user id, level 1, no xp, no study time, created now. */
    method CreateUser(insertUser: InsertUser, now: int) returns (user: User)
      requires Valid()
      modifies this`users, this`userId
      ensures Valid()
      ensures user == User(old(userId), insertUser.username, insertUser.password, insertUser.name,
                           insertUser.email, 1, 0, 0, now)
      ensures userId == old(userId) + 1
      ensures user.id !in old(users) && forall k :: k in old(users) ==> k < user.id
      ensures users == old(users)[user.id := user]
      ensures GetUser(user.id) == Some(user)
    {
      var id := userId;
      userId := userId + 1;
      user := User(id, insertUser.username, insertUser.password, insertUser.name, insertUser.email, 1, 0, 0, now);
      users := users[id := user];
    }

    /** `updateUser`: absent for an unknown id; otherwise the patch is spread over the stored user. */
    method UpdateUser(id: int, patch: UserPatch) returns (r: Option<User>)
      requires Valid()
      modifies this`users
      ensures Valid()
      ensures id !in old(users) ==> r == None && users == old(users)
      ensures id in old(users) ==> r == Some(MergeUser(old(users)[id], patch)) &&
                                   users == old(users)[id := r.value]
    {
      if id !in users {
        return None;
      }
      var updated := MergeUser(users[id], patch);
      users := users[id := updated];
      r := Some(updated);
    }

    // ---- Study materials ---------------------------------------------------

    /** `getMaterial`: the record stored under id, undefined when there is none. */
    function GetMaterial(id: int): (r: Option<StudyMaterial>)
      reads this
      ensures r.Some? <==> id in studyMaterials
      ensures r.Some? ==> r.value == studyMaterials[id]
    {
      if id in studyMaterials then Some(studyMaterials[id]) else None
    }

    /** The materials of one user, in insertion order. */
    function MaterialsOf(uid: int): (r: seq<StudyMaterial>)
      reads this
      requires Valid()
      ensures forall x :: x in r <==> x in studyMaterials.Values && x.userId == uid
      ensures |r| == |KeysWhere(studyMaterials, 1, materialId, MaterialOwnedBy(uid))|
      ensures forall i :: 0 <= i < |r| ==> r[i] == studyMaterials[KeysWhere(studyMaterials, 1, materialId, MaterialOwnedBy(uid))[i]]
    {
      var all := InKeyOrder(studyMaterials, 1, materialId);
      InKeyOrderValues(studyMaterials, 1, materialId);
      FilterInKeyOrder(studyMaterials, 1, materialId, MaterialOwnedBy(uid));
      Filter(all, MaterialOwnedBy(uid))
    }

    /**
     * `getMaterialsByUserId`: exactly the user's materials, most recently viewed
     * first (never viewed counts as 0); materials with the same key keep their
     * insertion order.
     */
    function GetMaterialsByUserId(uid: int): (r: seq<StudyMaterial>)
      reads this
      requires Valid()
      ensures multiset(r) == multiset(MaterialsOf(uid))
      ensures forall x :: x in r <==> x in studyMaterials.Values && x.userId == uid
      ensures forall i, j :: 0 <= i < j < |r| ==> LastViewedKey(r[i]) >= LastViewedKey(r[j])
      ensures forall t :: WithKey(r, LastViewedKey, t) == WithKey(MaterialsOf(uid), LastViewedKey, t)
    {
      var owned := MaterialsOf(uid);
      SortByNegatedStable(owned, LastViewedKey, NegLastViewedKey);
      SortByNegatedDescending(owned, LastViewedKey, NegLastViewedKey);
      SameMembers(SortBy(owned, NegLastViewedKey), owned);
      SortBy(owned, NegLastViewedKey)
    }

    /** `createMaterial`: progress 0 when absent or 0, a missing or empty description and a missing lastViewed become null. */
    method CreateMaterial(material: InsertStudyMaterial, now: int) returns (created: StudyMaterial)
      requires Valid()
      modifies this`studyMaterials, this`materialId
      ensures Valid()
      ensures created == StudyMaterial(
                old(materialId), material.userId, material.title,
                if material.description == Some("") then None else material.description,
                material.fileType, material.filePath, material.progress.GetOr(0),
                material.lastViewed, now)
      ensures materialId == old(materialId) + 1
      ensures created.id !in old(studyMaterials) && forall k :: k in old(studyMaterials) ==> k < created.id
      ensures studyMaterials == old(studyMaterials)[created.id := created]
      ensures GetMaterial(created.id) == Some(created)
    {
      var id := materialId;
      materialId := materialId + 1;
      var description := match material.description
        case Some(d) => if d != "" then Some(d) else None
        case None => None;
      var progress := match material.progress
        case Some(p) => if p != 0 then p else 0
        case None => 0;
      created := StudyMaterial(id, material.userId, material.title, description, material.fileType,
                               material.filePath, progress, material.lastViewed, now);
      studyMaterials := studyMaterials[id := created];
    }

    /** `updateMaterial`: absent for an unknown id; otherwise the patch is spread over the stored material. */
    method UpdateMaterial(id: int, patch: MaterialPatch) returns (r: Option<StudyMaterial>)
      requires Valid()
      modifies this`studyMaterials
      ensures Valid()
      ensures id !in old(studyMaterials) ==> r == None && studyMaterials == old(studyMaterials)
      ensures id in old(studyMaterials) ==> r == Some(MergeMaterial(old(studyMaterials)[id], patch)) &&
                                            studyMaterials == old(studyMaterials)[id := r.value]
    {
      if id !in studyMaterials {
        return None;
      }
      var updated := MergeMaterial(studyMaterials[id], patch);
      studyMaterials := studyMaterials[id := updated];
      r := Some(updated);
    }

    /** `deleteMaterial`: true iff the id was present; only that entry goes. */
    method DeleteMaterial(id: int) returns (removed: bool)
      requires Valid()
      modifies this`studyMaterials
      ensures Valid()
      ensures removed <==> id in old(studyMaterials)
      ensures studyMaterials == old(studyMaterials) - {id}
      ensures GetMaterial(id) == None
    {
      removed := id in studyMaterials;
      studyMaterials := studyMaterials - {id};
    }

    // ---- Study sessions ----------------------------------------------------

    /** `getStudySession`: the record stored under id, undefined when there is none. */
    function GetStudySession(id: int): (r: Option<StudySession>)
      reads this
      ensures r.Some? <==> id in studySessions
      ensures r.Some? ==> r.value == studySessions[id]
    {
      if id in studySessions then Some(studySessions[id]) else None
    }

    /** The sessions of one user, in insertion order. */
    function SessionsOf(uid: int): (r: seq<StudySession>)
      reads this
      requires Valid()
      ensures forall x :: x in r <==> x in studySessions.Values && x.userId == uid
      ensures |r| == |KeysWhere(studySessions, 1, sessionId, SessionOwnedBy(uid))|
      ensures forall i :: 0 <= i < |r| ==> r[i] == studySessions[KeysWhere(studySessions, 1, sessionId, SessionOwnedBy(uid))[i]]
    {
      var all := InKeyOrder(studySessions, 1, sessionId);
      InKeyOrderValues(studySessions, 1, sessionId);
      FilterInKeyOrder(studySessions, 1, sessionId, SessionOwnedBy(uid));
      Filter(all, SessionOwnedBy(uid))
    }

    /** `getStudySessionsByUserId`: the user's sessions, earliest start first, ties in insertion order. */
    function GetStudySessionsByUserId(uid: int): (r: seq<StudySession>)
      reads this
      requires Valid()
      ensures multiset(r) == multiset(SessionsOf(uid))
      ensures forall x :: x in r <==> x in studySessions.Values && x.userId == uid
      ensures forall i, j :: 0 <= i < j < |r| ==> r[i].startTime <= r[j].startTime
      ensures forall t :: WithKey(r, StartTimeKey, t) == WithKey(SessionsOf(uid), StartTimeKey, t)
    {
      var owned := SessionsOf(uid);
      var r := SortBy(owned, StartTimeKey);
      assert forall x :: x in r <==> x in multiset(r);
      assert forall t :: WithKey(r, StartTimeKey, t) == WithKey(owned, StartTimeKey, t) by {
        forall t ensures WithKey(r, StartTimeKey, t) == WithKey(owned, StartTimeKey, t) {
          SortByStable(owned, StartTimeKey, t);
        }
      }
      r
    }

    /** The user's sessions that start at or after `now` and are not completed, in insertion order. */
    function UpcomingOf(uid: int, now: int): (r: seq<StudySession>)
      reads this
      requires Valid()
      ensures forall x :: x in r <==>
                x in studySessions.Values && x.userId == uid && x.startTime >= now && !x.isCompleted
      ensures |r| == |KeysWhere(studySessions, 1, sessionId, UpcomingFor(uid, now))|
      ensures forall i :: 0 <= i < |r| ==> r[i] == studySessions[KeysWhere(studySessions, 1, sessionId, UpcomingFor(uid, now))[i]]
    {
      var all := InKeyOrder(studySessions, 1, sessionId);
      InKeyOrderValues(studySessions, 1, sessionId);
      FilterInKeyOrder(studySessions, 1, sessionId, UpcomingFor(uid, now));
      Filter(all, UpcomingFor(uid, now))
    }

    /**
     * `getUpcomingStudySessions`: exactly the user's sessions that start at or
     * after now and are not completed, earliest first, ties in insertion order.
     */
    function GetUpcomingStudySessions(uid: int, now: int): (r: seq<StudySession>)
      reads this
      requires Valid()
      ensures multiset(r) == multiset(UpcomingOf(uid, now))
      ensures forall x :: x in r <==>
                x in studySessions.Values && x.userId == uid && x.startTime >= now && !x.isCompleted
      ensures forall i, j :: 0 <= i < j < |r| ==> r[i].startTime <= r[j].startTime
      ensures forall t :: WithKey(r, StartTimeKey, t) == WithKey(UpcomingOf(uid, now), StartTimeKey, t)
    {
      var upcoming := UpcomingOf(uid, now);
      var r := SortBy(upcoming, StartTimeKey);
      assert forall x :: x in r <==> x in multiset(r);
      assert forall t :: WithKey(r, StartTimeKey, t) == WithKey(upcoming, StartTimeKey, t) by {
        forall t ensures WithKey(r, StartTimeKey, t) == WithKey(upcoming, StartTimeKey, t) {
          SortByStable(upcoming, StartTimeKey, t);
        }
      }
      r
    }

    /** `createStudySession`: the next session id, not completed, created now. */
    method CreateStudySession(session: InsertStudySession, now: int) returns (created: StudySession)
      requires Valid()
      modifies this`studySessions, this`sessionId
      ensures Valid()
      ensures created == StudySession(old(sessionId), session.userId, session.title, session.subject,
                                      session.startTime, session.endTime, false, now)
      ensures sessionId == old(sessionId) + 1
      ensures created.id !in old(studySessions) && forall k :: k in old(studySessions) ==> k < created.id
      ensures studySessions == old(studySessions)[created.id := created]
      ensures GetStudySession(created.id) == Some(created)
    {
      var id := sessionId;
      sessionId := sessionId + 1;
      created := StudySession(id, session.userId, session.title, session.subject,
                              session.startTime, session.endTime, false, now);
      studySessions := studySessions[id := created];
    }

    /** `updateStudySession`: absent for an unknown id; otherwise the patch is spread over the stored session. */
    method UpdateStudySession(id: int, patch: SessionPatch) returns (r: Option<StudySession>)
      requires Valid()
      modifies this`studySessions
      ensures Valid()
      ensures id !in old(studySessions) ==> r == None && studySessions == old(studySessions)
      ensures id in old(studySessions) ==> r == Some(MergeSession(old(studySessions)[id], patch)) &&
                                           studySessions == old(studySessions)[id := r.value]
    {
      if id !in studySessions {
        return None;
      }
      var updated := MergeSession(studySessions[id], patch);
      studySessions := studySessions[id := updated];
      r := Some(updated);
    }

    /** `deleteStudySession`: true iff the id was present; only that entry goes. */
    method DeleteStudySession(id: int) returns (removed: bool)
      requires Valid()
      modifies this`studySessions
      ensures Valid()
      ensures removed <==> id in old(studySessions)
      ensures studySessions == old(studySessions) - {id}
      ensures GetStudySession(id) == None
    {
      removed := id in studySessions;
      studySessions := studySessions - {id};
    }

    // ---- Material summaries --------------------------------------------------

    /** `getMaterialSummary`: the record stored under id, undefined when there is none. */
    function GetMaterialSummary(id: int): (r: Option<MaterialSummary>)
      reads this
      ensures r.Some? <==> id in materialSummaries
      ensures r.Some? ==> r.value == materialSummaries[id]
    {
      if id in materialSummaries then Some(materialSummaries[id]) else None
    }

    /** `getMaterialSummariesByMaterialId`: the summaries of one material, in insertion order. */
    function GetMaterialSummariesByMaterialId(mid: int): (r: seq<MaterialSummary>)
      reads this
      requires Valid()
      ensures forall x :: x in r <==> x in materialSummaries.Values && x.materialId == mid
      ensures |r| == |KeysWhere(materialSummaries, 1, summaryId, SummaryOfMaterial(mid))|
      ensures forall i :: 0 <= i < |r| ==> r[i] == materialSummaries[KeysWhere(materialSummaries, 1, summaryId, SummaryOfMaterial(mid))[i]]
    {
      var all := InKeyOrder(materialSummaries, 1, summaryId);
      InKeyOrderValues(materialSummaries, 1, summaryId);
      FilterInKeyOrder(materialSummaries, 1, summaryId, SummaryOfMaterial(mid));
      Filter(all, SummaryOfMaterial(mid))
    }

    /** `createMaterialSummary`: the next summary id, created now; summaries are only ever added. */
    method CreateMaterialSummary(summary: InsertMaterialSummary, now: int) returns (created: MaterialSummary)
      requires Valid()
      modifies this`materialSummaries, this`summaryId
      ensures Valid()
      ensures created == MaterialSummary(old(summaryId), summary.materialId, summary.userId, summary.content, now)
      ensures summaryId == old(summaryId) + 1
      ensures created.id !in old(materialSummaries) && forall k :: k in old(materialSummaries) ==> k < created.id
      ensures materialSummaries == old(materialSummaries)[created.id := created]
      ensures GetMaterialSummary(created.id) == Some(created)
    {
      var id := summaryId;
      summaryId := summaryId + 1;
      created := MaterialSummary(id, summary.materialId, summary.userId, summary.content, now);
      materialSummaries := materialSummaries[id := created];
    }

    // ---- Flashcards ----------------------------------------------------------

    /** `getFlashcard`: the record stored under id, undefined when there is none. */
    function GetFlashcard(id: int): (r: Option<Flashcard>)
      reads this
      ensures r.Some? <==> id in flashcards
      ensures r.Some? ==> r.value == flashcards[id]
    {
      if id in flashcards then Some(flashcards[id]) else None
    }

    /** `getFlashcardsByUserId`: the user's flashcards, in insertion order. */
    function GetFlashcardsByUserId(uid: int): (r: seq<Flashcard>)
      reads this
      requires Valid()
      ensures forall x :: x in r <==> x in flashcards.Values && x.userId == uid
      ensures |r| == |KeysWhere(flashcards, 1, flashcardId, CardOwnedBy(uid))|
      ensures forall i :: 0 <= i < |r| ==> r[i] == flashcards[KeysWhere(flashcards, 1, flashcardId, CardOwnedBy(uid))[i]]
    {
      var all := InKeyOrder(flashcards, 1, flashcardId);
      InKeyOrderValues(flashcards, 1, flashcardId);
      FilterInKeyOrder(flashcards, 1, flashcardId, CardOwnedBy(uid));
      Filter(all, CardOwnedBy(uid))
    }

    /** `getFlashcardsByMaterialId`: the flashcards of one material; a card without material never matches. */
    function GetFlashcardsByMaterialId(mid: int): (r: seq<Flashcard>)
      reads this
      requires Valid()
      ensures forall x :: x in r <==> x in flashcards.Values && x.materialId == Some(mid)
      ensures |r| == |KeysWhere(flashcards, 1, flashcardId, CardOfMaterial(mid))|
      ensures forall i :: 0 <= i < |r| ==> r[i] == flashcards[KeysWhere(flashcards, 1, flashcardId, CardOfMaterial(mid))[i]]
    {
      var all := InKeyOrder(flashcards, 1, flashcardId);
      InKeyOrderValues(flashcards, 1, flashcardId);
      FilterInKeyOrder(flashcards, 1, flashcardId, CardOfMaterial(mid));
      Filter(all, CardOfMaterial(mid))
    }

    /** `createFlashcard`: the next flashcard id, created now; a missing or 0 material id becomes null. */
    method CreateFlashcard(flashcard: InsertFlashcard, now: int) returns (created: Flashcard)
      requires Valid()
      modifies this`flashcards, this`flashcardId
      ensures Valid()
      ensures created == Flashcard(old(flashcardId), flashcard.userId, StoredMaterialId(flashcard.materialId),
                                   flashcard.question, flashcard.answer, now)
      ensures flashcardId == old(flashcardId) + 1
      ensures created.id !in old(flashcards) && forall k :: k in old(flashcards) ==> k < created.id
      ensures flashcards == old(flashcards)[created.id := created]
      ensures GetFlashcard(created.id) == Some(created)
    {
      var id := flashcardId;
      flashcardId := flashcardId + 1;
      var mid := match flashcard.materialId
        case Some(m) => if m != 0 then Some(m) else None
        case None => None;
      created := Flashcard(id, flashcard.userId, mid, flashcard.question, flashcard.answer, now);
      flashcards := flashcards[id := created];
    }

    /** `deleteFlashcard`: true iff the id was present; only that entry goes. */
    method DeleteFlashcard(id: int) returns (removed: bool)
      requires Valid()
      modifies this`flashcards
      ensures Valid()
      ensures removed <==> id in old(flashcards)
      ensures flashcards == old(flashcards) - {id}
      ensures GetFlashcard(id) == None
    {
      removed := id in flashcards;
      flashcards := flashcards - {id};
    }

    // ---- Conversations -------------------------------------------------------

    /** `getConversation`: the record stored under id, undefined when there is none. */
    function GetConversation(id: int): (r: Option<Conversation>)
      reads this
      ensures r.Some? <==> id in conversations
      ensures r.Some? ==> r.value == conversations[id]
    {
      if id in conversations then Some(conversations[id]) else None
    }

    /** The conversations of one user, in insertion order. */
    function ConversationsOf(uid: int): (r: seq<Conversation>)
      reads this
      requires Valid()
      ensures forall x :: x in r <==> x in conversations.Values && x.userId == uid
      ensures |r| == |KeysWhere(conversations, 1, conversationId, ConversationOwnedBy(uid))|
      ensures forall i :: 0 <= i < |r| ==> r[i] == conversations[KeysWhere(conversations, 1, conversationId, ConversationOwnedBy(uid))[i]]
    {
      var all := InKeyOrder(conversations, 1, conversationId);
      InKeyOrderValues(conversations, 1, conversationId);
      FilterInKeyOrder(conversations, 1, conversationId, ConversationOwnedBy(uid));
      Filter(all, ConversationOwnedBy(uid))
    }

    /** `getConversationsByUserId`: the user's conversations, newest first, ties in insertion order. */
    function GetConversationsByUserId(uid: int): (r: seq<Conversation>)
      reads this
      requires Valid()
      ensures multiset(r) == multiset(ConversationsOf(uid))
      ensures forall x :: x in r <==> x in conversations.Values && x.userId == uid
      ensures forall i, j :: 0 <= i < j < |r| ==> r[i].createdAt >= r[j].createdAt
      ensures forall t :: WithKey(r, CreatedAtKey, t) == WithKey(ConversationsOf(uid), CreatedAtKey, t)
    {
      var owned := ConversationsOf(uid);
      SortByNegatedStable(owned, CreatedAtKey, NegCreatedAtKey);
      SortByNegatedDescending(owned, CreatedAtKey, NegCreatedAtKey);
      SameMembers(SortBy(owned, NegCreatedAtKey), owned);
      SortBy(owned, NegCreatedAtKey)
    }

    /** `createConversation`: the next conversation id, a copy of the messages (none when not an array), created now. */
    method CreateConversation(conversation: InsertConversation, now: int) returns (created: Conversation)
      requires Valid()
      modifies this`conversations, this`conversationId
      ensures Valid()
      ensures created == Conversation(old(conversationId), conversation.userId,
                                      conversation.messages.GetOr([]), now)
      ensures conversationId == old(conversationId) + 1
      ensures created.id !in old(conversations) && forall k :: k in old(conversations) ==> k < created.id
      ensures conversations == old(conversations)[created.id := created]
      ensures GetConversation(created.id) == Some(created)
    {
      var id := conversationId;
      conversationId := conversationId + 1;
      var messages := match conversation.messages
        case Some(ms) => ms
        case None => [];
      created := Conversation(id, conversation.userId, messages, now);
      conversations := conversations[id := created];
    }

    /** `updateConversation`: absent for an unknown id; otherwise the whole message list is replaced. */
    method UpdateConversation(id: int, messages: seq<Message>) returns (r: Option<Conversation>)
      requires Valid()
      modifies this`conversations
      ensures Valid()
      ensures id !in old(conversations) ==> r == None && conversations == old(conversations)
      ensures id in old(conversations) ==> r == Some(old(conversations)[id].(messages := messages)) &&
                                           conversations == old(conversations)[id := r.value]
    {
      if id !in conversations {
        return None;
      }
      var updated := conversations[id].(messages := messages);
      conversations := conversations[id := updated];
      r := Some(updated);
    }

    /** `deleteConversation`: true iff the id was present; only that entry goes. */
    method DeleteConversation(id: int) returns (removed: bool)
      requires Valid()
      modifies this`conversations
      ensures Valid()
      ensures removed <==> id in old(conversations)
      ensures conversations == old(conversations) - {id}
      ensures GetConversation(id) == None
    {
      removed := id in conversations;
      conversations := conversations - {id};
    }

    // ---- Badges --------------------------------------------------------------

    /** `getAllBadges`: the whole catalogue, in insertion order. */
    function GetAllBadges(): (r: seq<Badge>)
      reads this
      requires Valid()
      ensures forall x :: x in r <==> x in badges.Values
      ensures |r| == |KeysWhere(badges, 1, badgeId, AnyBadge)|
      ensures forall i :: 0 <= i < |r| ==> r[i] == badges[KeysWhere(badges, 1, badgeId, AnyBadge)[i]]
    {
      InKeyOrderValues(badges, 1, badgeId);
      InKeyOrderAtKeys(badges, 1, badgeId, AnyBadge);
      InKeyOrder(badges, 1, badgeId)
    }

    /** The badge ids of the user's UserBadge rows, in insertion order (duplicates kept). */
    function UserBadgeIds(uid: int): (r: seq<int>)
      reads this
      requires Valid()
      ensures forall b :: b in r <==> exists ub :: ub in userBadges.Values && ub.userId == uid && ub.badgeId == b
    {
      InKeyOrderValues(userBadges, 1, userBadgeId);
      var rows := Filter(InKeyOrder(userBadges, 1, userBadgeId), (ub: UserBadge) => ub.userId == uid);
      assert forall ub :: ub in rows <==> ub in userBadges.Values && ub.userId == uid;
      BadgeIds(rows)
    }

    /**
     * `getUserBadges`: the catalogue badges that some UserBadge row of the user
     * names, in catalogue order, each no more often than it is in the
     * catalogue however many rows name it.
     */
    function GetUserBadges(uid: int): (r: seq<Badge>)
      reads this
      requires Valid()
      ensures forall b :: b in r <==>
                b in badges.Values &&
                exists ub :: ub in userBadges.Values && ub.userId == uid && ub.badgeId == b.id
      ensures multiset(r) <= multiset(GetAllBadges())
      ensures r == Filter(GetAllBadges(), EarnedBy(userBadges.Values, uid))
    {
      var ids := UserBadgeIds(uid);
      var named := (b: Badge) => b.id in ids;
      FilterAgree(GetAllBadges(), named, EarnedBy(userBadges.Values, uid));
      Filter(GetAllBadges(), named)
    }

    /** `assignBadgeToUser`: the next UserBadge id, earned now. */
    method AssignBadgeToUser(userBadge: InsertUserBadge, now: int) returns (created: UserBadge)
      requires Valid()
      modifies this`userBadges, this`userBadgeId
      ensures Valid()
      ensures created == UserBadge(old(userBadgeId), userBadge.userId, userBadge.badgeId, now)
      ensures userBadgeId == old(userBadgeId) + 1
      ensures created.id !in old(userBadges) && forall k :: k in old(userBadges) ==> k < created.id
      ensures userBadges == old(userBadges)[created.id := created]
    {
      var id := userBadgeId;
      userBadgeId := userBadgeId + 1;
      created := UserBadge(id, userBadge.userId, userBadge.badgeId, now);
      userBadges := userBadges[id := created];
    }
  }
}
