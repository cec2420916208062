/** The documents and field patches the task lifecycle writes: a new task (`createTask`), an
    application (`applyForTask`), acceptance and the chat it opens (`acceptApplication`),
    completion, the rating update and the review (`completeTask`, `createReview`). A patch
    is what `updateDoc` writes over the stored fields (see `TaskPatch.Apply`). Server
    timestamps are the parameter `now`. */
module Lifecycle {
  import opened Wrappers
  import opened Documents
  import Ratings

  /** The fields `createTask` writes over the caller's task data. */
  const ForcedTaskFields: set<string> := {"creatorId", "status", "createdAt", "applications"}

  /** `{ ...taskData, creatorId, status: "open", createdAt, applications: [] }`. */
  function NewTask(userId: string, taskData: Doc, now: int): Doc
  {
    taskData["creatorId" := Str(userId)]["status" := Str("open")]["createdAt" := Time(now)]["applications" := Arr([])]
  }

  /** The application `applyForTask` adds. */
  function NewApplication(taskId: string, userId: string, message: string, price: real, now: int): Doc
  {
    map["taskId" := Str(taskId), "applicantId" := Str(userId), "message" := Str(message),
        "price" := Num(price), "status" := Str("pending"), "createdAt" := Time(now)]
  }

  function AcceptPatch(now: int): Doc
  {
    map["status" := Str("accepted"), "updatedAt" := Time(now)]
  }

  function MatchPatch(applicationId: string, now: int): Doc
  {
    map["status" := Str("matched"), "matchedApplicationId" := Str(applicationId), "updatedAt" := Time(now)]
  }

  /** The chat room between the task's creator and the applicant. */
  function NewChat(taskId: string, creatorId: Value, applicantId: Value, now: int): Doc
  {
    map["taskId" := Str(taskId), "participants" := Arr([creatorId, applicantId]),
        "createdAt" := Time(now), "lastMessage" := Null, "lastMessageAt" := Null]
  }

  function CompletePatch(now: int): Doc
  {
    map["status" := Str("completed"), "completedAt" := Time(now)]
  }

  /** The new `rating` and `ratingCount` of a user who receives a review rated `r`. The
      stored fields are read as `rating || 0` and `ratingCount || 0`. */
  function RatingPatch(user: Doc, r: real): Doc
    requires Ratings.CountField(Get(user, "ratingCount"))
  {
    var count := Ratings.CountOf(Get(user, "ratingCount"));
    map["rating" := Ratings.ReviewedRating(Get(user, "rating"), count, r),
        "ratingCount" := Num(count as real + 1.0)]
  }

  /** The user patch of `completeTask`: one more completed task and the rating update. */
  function CompletedUserPatch(user: Doc, r: real): Doc
    requires Ratings.CountField(Get(user, "ratingCount"))
  {
    RatingPatch(user, r)["completedTasks" := Incremented(Get(user, "completedTasks"), 1.0)]
  }

  /** The review `completeTask` adds. */
  function CompletionReview(taskId: string, creatorId: Value, userId: string, rating: real, review: string, now: int): Doc
  {
    map["taskId" := Str(taskId), "reviewerId" := creatorId, "userId" := Str(userId),
        "rating" := Num(rating), "content" := Str(review), "createdAt" := Time(now)]
  }

  /** The review data a caller passes to `createReview`. */
  datatype ReviewData = ReviewData(userId: string, authorId: string, taskId: string, taskTitle: string,
                                   rating: real, text: string)

  /** `{ ...reviewData, createdAt }`. */
  function NewReview(d: ReviewData, now: int): Doc
  {
    map["userId" := Str(d.userId), "authorId" := Str(d.authorId), "taskId" := Str(d.taskId),
        "taskTitle" := Str(d.taskTitle), "rating" := Num(d.rating), "text" := Str(d.text),
        "createdAt" := Time(now)]
  }

  // ---------------------------------------------------------------------------------------
  // Lemmas

  /** A new task is open, owned by its creator, without applications and stamped with the
      creation time, whatever the caller's data said about these fields; every other field
      of the caller's data is kept. */
  lemma NewTaskForcesFields(userId: string, taskData: Doc, now: int)
    ensures var t := NewTask(userId, taskData, now);
      && t.Keys == taskData.Keys + ForcedTaskFields
      && t["creatorId"] == Str(userId) && t["status"] == Str("open")
      && t["createdAt"] == Time(now) && t["applications"] == Arr([])
      && forall k :: k in taskData && k !in ForcedTaskFields ==> t[k] == taskData[k]
  {
  }

  /** A caller cannot smuggle in another owner or status: the forced fields do not depend on
      the caller's data. */
  lemma NewTaskIgnoresCallerStatus(userId: string, d1: Doc, d2: Doc, now: int)
    ensures forall k :: k in ForcedTaskFields ==> NewTask(userId, d1, now)[k] == NewTask(userId, d2, now)[k]
  {
  }

  /** The status a task goes through: `open` when created, `matched` when an application is
      accepted, `completed` when it is completed; accepting records the application. */
  lemma StatusProgression(userId: string, taskData: Doc, applicationId: string, t0: int, t1: int, t2: int)
    ensures var created := NewTask(userId, taskData, t0);
      var matched := created + MatchPatch(applicationId, t1);
      var completed := matched + CompletePatch(t2);
      && created["status"] == Str("open")
      && matched["status"] == Str("matched")
      && matched["matchedApplicationId"] == Str(applicationId)
      && completed["status"] == Str("completed")
      && completed["matchedApplicationId"] == Str(applicationId)
      && completed["creatorId"] == Str(userId)
  {
  }

  /** The rating update: one more rating, and the mean moved to include `r`; a stored count
      stays a whole number. */
  lemma RatingPatchSpec(user: Doc, r: real)
    requires Ratings.CountField(Get(user, "ratingCount"))
    ensures var p := RatingPatch(user, r);
      var count := Ratings.CountOf(Get(user, "ratingCount"));
      && Ratings.CountField(Get(p, "ratingCount"))
      && Ratings.CountOf(Get(p, "ratingCount")) == count + 1
      && (Get(user, "rating").None? ==> p["rating"] == Num(Ratings.NextMean(0.0, count, r)))
      && (forall m :: Get(user, "rating") == Some(Num(m)) ==> p["rating"] == Num(Ratings.NextMean(m, count, r)))
  {
    var count := Ratings.CountOf(Get(user, "ratingCount"));
    var p := RatingPatch(user, r);
    assert p["ratingCount"] == Num(count as real + 1.0);
    assert (count as real + 1.0).Floor == count + 1;
  }

  /** A user updated by `completeTask` still has a whole `ratingCount`. */
  lemma CompletedUserKeepsCount(user: Doc, r: real)
    requires Ratings.CountField(Get(user, "ratingCount"))
    ensures Ratings.CountField(Get(user + CompletedUserPatch(user, r), "ratingCount"))
  {
    RatingPatchSpec(user, r);
    assert (user + CompletedUserPatch(user, r))["ratingCount"] == RatingPatch(user, r)["ratingCount"];
  }

  /** With ratings between 1 and 5 the stored mean stays between 1 and 5, from a stored mean
      in that range or from a profile without ratings yet (`ratingCount` 0, and `rating`
      missing or a number, such as the 0 a new profile starts with). */
  lemma RatingPatchBounds(user: Doc, m: real, r: real)
    requires Ratings.CountField(Get(user, "ratingCount"))
    requires (Ratings.CountOf(Get(user, "ratingCount")) == 0 &&
              (Get(user, "rating").None? || Get(user, "rating") == Some(Num(m)))) ||
             (Get(user, "rating") == Some(Num(m)) && 1.0 <= m <= 5.0)
    requires 1.0 <= r <= 5.0
    ensures RatingPatch(user, r)["rating"].Num?
    ensures 1.0 <= RatingPatch(user, r)["rating"].x <= 5.0
  {
    var mean := Ratings.ToNumber(Some(OrElse(Get(user, "rating"), Num(0.0))));
    assert mean.Some?;
    Ratings.NextMeanBounds(mean.value, Ratings.CountOf(Get(user, "ratingCount")), r);
  }
}
