// The record types of the shared schema (shared/schema.ts), as the in-memory
// store holds them. Timestamps are integers (milliseconds since the epoch);
// nullable columns are Options. An `Insert*` type is what a create receives,
// a `*Patch` type is the `Partial<T>` an update receives: one Option per
// field, `None` when the field is absent from the patch.
module Schema {
  import opened Wrappers

  datatype User = User(
    id: int, username: string, password: string, name: string, email: string,
    level: int, xp: int, totalStudyTime: int, createdAt: int)

  datatype InsertUser = InsertUser(username: string, password: string, name: string, email: string)

  datatype UserPatch = UserPatch(
    id: Option<int>, username: Option<string>, password: Option<string>,
    name: Option<string>, email: Option<string>, level: Option<int>, xp: Option<int>,
    totalStudyTime: Option<int>, createdAt: Option<int>)

  datatype StudyMaterial = StudyMaterial(
    id: int, userId: int, title: string, description: Option<string>,
    fileType: string, filePath: string, progress: int, lastViewed: Option<int>,
    createdAt: int)

  datatype InsertStudyMaterial = InsertStudyMaterial(
    userId: int, title: string, description: Option<string>, fileType: string,
    filePath: string, progress: Option<int>, lastViewed: Option<int>)

  datatype MaterialPatch = MaterialPatch(
    id: Option<int>, userId: Option<int>, title: Option<string>,
    description: Option<Option<string>>, fileType: Option<string>,
    filePath: Option<string>, progress: Option<int>,
    lastViewed: Option<Option<int>>, createdAt: Option<int>)

  datatype StudySession = StudySession(
    id: int, userId: int, title: string, subject: string,
    startTime: int, endTime: int, isCompleted: bool, createdAt: int)

  datatype InsertStudySession = InsertStudySession(
    userId: int, title: string, subject: string, startTime: int, endTime: int)

  datatype SessionPatch = SessionPatch(
    id: Option<int>, userId: Option<int>, title: Option<string>, subject: Option<string>,
    startTime: Option<int>, endTime: Option<int>, isCompleted: Option<bool>,
    createdAt: Option<int>)

  datatype MaterialSummary = MaterialSummary(
    id: int, materialId: int, userId: int, content: string, createdAt: int)

  datatype InsertMaterialSummary = InsertMaterialSummary(materialId: int, userId: int, content: string)

  datatype Flashcard = Flashcard(
    id: int, userId: int, materialId: Option<int>, question: string, answer: string,
    createdAt: int)

  datatype InsertFlashcard = InsertFlashcard(
    userId: int, materialId: Option<int>, question: string, answer: string)

  /** One chat message; roles are "user", "system" or "assistant". */
  datatype Message = Message(role: string, content: string)

  datatype Conversation = Conversation(id: int, userId: int, messages: seq<Message>, createdAt: int)

  /** `messages` is None when the payload's messages value is not an array. */
  datatype InsertConversation = InsertConversation(userId: int, messages: Option<seq<Message>>)

  datatype Badge = Badge(id: int, name: string, description: string, icon: string, requirement: string)

  datatype UserBadge = UserBadge(id: int, userId: int, badgeId: int, earnedAt: int)

  datatype InsertUserBadge = InsertUserBadge(userId: int, badgeId: int)

  // The object spread `{ ...record, ...patch }`: every field present in the
  // patch overrides the stored one, `id` included.

  function MergeUser(u: User, p: UserPatch): (r: User)
    ensures p == UserPatch(None, None, None, None, None, None, None, None, None) ==> r == u
    ensures r.id == if p.id.Some? then p.id.value else u.id
    ensures p.password.None? ==> r.password == u.password
  {
    User(p.id.GetOr(u.id), p.username.GetOr(u.username), p.password.GetOr(u.password),
         p.name.GetOr(u.name), p.email.GetOr(u.email), p.level.GetOr(u.level),
         p.xp.GetOr(u.xp), p.totalStudyTime.GetOr(u.totalStudyTime),
         p.createdAt.GetOr(u.createdAt))
  }

  function MergeMaterial(m: StudyMaterial, p: MaterialPatch): (r: StudyMaterial)
    ensures p == MaterialPatch(None, None, None, None, None, None, None, None, None) ==> r == m
    ensures r.id == if p.id.Some? then p.id.value else m.id
    ensures p.progress.None? && p.lastViewed.None? ==> r.progress == m.progress && r.lastViewed == m.lastViewed
  {
    StudyMaterial(p.id.GetOr(m.id), p.userId.GetOr(m.userId), p.title.GetOr(m.title),
                  p.description.GetOr(m.description), p.fileType.GetOr(m.fileType),
                  p.filePath.GetOr(m.filePath), p.progress.GetOr(m.progress),
                  p.lastViewed.GetOr(m.lastViewed), p.createdAt.GetOr(m.createdAt))
  }

  function MergeSession(s: StudySession, p: SessionPatch): (r: StudySession)
    ensures p == SessionPatch(None, None, None, None, None, None, None, None) ==> r == s
    ensures r.id == if p.id.Some? then p.id.value else s.id
    ensures p.isCompleted.None? ==> r.isCompleted == s.isCompleted
  {
    StudySession(p.id.GetOr(s.id), p.userId.GetOr(s.userId), p.title.GetOr(s.title),
                 p.subject.GetOr(s.subject), p.startTime.GetOr(s.startTime),
                 p.endTime.GetOr(s.endTime), p.isCompleted.GetOr(s.isCompleted),
                 p.createdAt.GetOr(s.createdAt))
  }

  const EmptyMaterialPatch := MaterialPatch(None, None, None, None, None, None, None, None, None)

  /** Merging is last-write-wins: applying the same patch twice changes nothing more. */
  lemma MergeMaterialIdempotent(m: StudyMaterial, p: MaterialPatch)
    ensures MergeMaterial(MergeMaterial(m, p), p) == MergeMaterial(m, p)
    ensures MergeMaterial(m, EmptyMaterialPatch) == m
  {
  }
}
