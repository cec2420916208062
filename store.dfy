/** The Firestore collections the task functions of `firebase.ts` read and write, as one
    object with a map per collection, and those functions as methods on it. Each method
    performs the source's reads and writes in the source's order; a write that fails
    (`updateDoc` on a missing document, a document reference built from an invalid id, a
    field value `undefined`) ends the method with `Err` and keeps the writes made before it.
    Ids that `addDoc` generates and server timestamps are parameters. */
module TaskStore {
  import opened Wrappers
  import opened Documents
  import opened TaskShaping
  import opened Collections
  import Ratings
  import Lifecycle
  import TaskPatch

  /** A string used as a document id. */
  predicate ValidKey(id: string)
  {
    ValidId(Some(Str(id)))
  }

  class Store {
    var tasks: map<string, Doc>
    var applications: map<string, Doc>
    var users: map<string, Doc>
    var chats: map<string, Doc>
    var reviews: map<string, Doc>

    /** Every user's `ratingCount` is absent, falsy or a whole number, as the rating updates
        leave it. */
    ghost predicate Valid()
      reads this
    {
      forall u :: u in users ==> Ratings.CountField(Get(users[u], "ratingCount"))
    }

    constructor (tasks: map<string, Doc>, applications: map<string, Doc>, users: map<string, Doc>,
                 chats: map<string, Doc>, reviews: map<string, Doc>)
      requires forall u :: u in users ==> Ratings.CountField(Get(users[u], "ratingCount"))
      ensures Valid()
      ensures this.tasks == tasks && this.applications == applications && this.users == users
      ensures this.chats == chats && this.reviews == reviews
    {
      this.tasks, this.applications, this.users := tasks, applications, users;
      this.chats, this.reviews := chats, reviews;
    }

    /** `createTask`: adds the task, then counts it in the owner's `postedTasks`. */
    method CreateTask(userId: string, taskData: Doc, newId: string, now: int) returns (r: Result<string, string>)
      requires Valid() && newId !in tasks
      modifies this
      ensures Valid()
      ensures tasks == old(tasks)[newId := Lifecycle.NewTask(userId, taskData, now)]
      ensures applications == old(applications) && chats == old(chats) && reviews == old(reviews)
      ensures r.Ok? <==> ValidKey(userId) && userId in old(users)
      ensures r.Ok? ==>
        (r.value == newId &&
         users == old(users)[userId := old(users)[userId]["postedTasks" := Incremented(Get(old(users)[userId], "postedTasks"), 1.0)]])
      ensures r.Err? ==> users == old(users)
    {
      tasks := tasks[newId := Lifecycle.NewTask(userId, taskData, now)];
      if !ValidKey(userId) {
        return Err("invalid user id");
      }
      if userId !in users {
        return Err("user document not found");
      }
      var user := users[userId];
      users := users[userId := user["postedTasks" := Incremented(Get(user, "postedTasks"), 1.0)]];
      r := Ok(newId);
    }

    /** `applyForTask`: adds a pending application. */
    method ApplyForTask(taskId: string, userId: string, message: string, price: real, newId: string, now: int)
      returns (id: string)
      requires newId !in applications
      modifies this`applications
      ensures id == newId
      ensures applications == old(applications)[newId := Lifecycle.NewApplication(taskId, userId, message, price, now)]
    {
      applications := applications[newId := Lifecycle.NewApplication(taskId, userId, message, price, now)];
      id := newId;
    }

    /** `acceptApplication`: accepts the application, matches the task to it, and opens a chat
        between the task's creator and the applicant. */
    method AcceptApplication(applicationId: string, taskId: string, chatId: string, now: int)
      returns (r: Result<string, string>)
      requires Valid() && chatId !in chats
      modifies this`applications, this`tasks, this`chats
      ensures Valid()
      ensures r.Ok? <==>
        && ValidKey(applicationId) && ValidKey(taskId)
        && applicationId in old(applications) && taskId in old(tasks)
        && "creatorId" in old(tasks)[taskId] && "applicantId" in old(applications)[applicationId]
      ensures r.Ok? ==>
        (r.value == chatId &&
         chats == old(chats)[chatId := Lifecycle.NewChat(taskId, old(tasks)[taskId]["creatorId"],
                                                         old(applications)[applicationId]["applicantId"], now)])
      ensures r.Err? ==> chats == old(chats)
      ensures applications ==
        if ValidKey(applicationId) && ValidKey(taskId) && applicationId in old(applications) then
          old(applications)[applicationId := old(applications)[applicationId] + Lifecycle.AcceptPatch(now)]
        else old(applications)
      ensures tasks ==
        if ValidKey(applicationId) && ValidKey(taskId) && applicationId in old(applications) && taskId in old(tasks) then
          old(tasks)[taskId := old(tasks)[taskId] + Lifecycle.MatchPatch(applicationId, now)]
        else old(tasks)
    {
      if !ValidKey(applicationId) || !ValidKey(taskId) {
        return Err("invalid document id");
      }
      if applicationId !in applications {
        return Err("application not found");
      }
      applications := applications[applicationId := applications[applicationId] + Lifecycle.AcceptPatch(now)];
      if taskId !in tasks {
        return Err("task not found");
      }
      tasks := tasks[taskId := tasks[taskId] + Lifecycle.MatchPatch(applicationId, now)];
      var application, task := applications[applicationId], tasks[taskId];
      if "creatorId" !in task || "applicantId" !in application {
        return Err("participant undefined");
      }
      chats := chats[chatId := Lifecycle.NewChat(taskId, task["creatorId"], application["applicantId"], now)];
      r := Ok(chatId);
    }

    /** `completeTask`: when the task has a matched application that exists, marks the task
        completed, updates the applicant's counts and rating, and adds the review. */
    method CompleteTask(taskId: string, rating: real, review: string, reviewId: string, now: int)
      returns (r: Result<(), string>)
      requires Valid() && reviewId !in reviews
      modifies this`tasks, this`users, this`reviews
      ensures Valid()
      ensures !ValidKey(taskId) ==> r.Err? && unchanged(this)
      ensures ValidKey(taskId) && (taskId !in old(tasks) || !Truthy(Get(old(tasks)[taskId], "matchedApplicationId"))) ==>
        r.Ok? && unchanged(this)
      ensures ValidKey(taskId) && taskId in old(tasks) && Truthy(Get(old(tasks)[taskId], "matchedApplicationId")) ==>
        var appId := old(tasks)[taskId]["matchedApplicationId"];
        && (!ValidId(Some(appId)) ==> r.Err? && unchanged(this))
        && (ValidId(Some(appId)) && appId.s !in applications ==> r.Ok? && unchanged(this))
        && (ValidId(Some(appId)) && appId.s in applications ==>
              var userId := Get(applications[appId.s], "applicantId");
              && tasks == old(tasks)[taskId := old(tasks)[taskId] + Lifecycle.CompletePatch(now)]
              && (!ValidId(userId) ==> r.Err? && users == old(users) && reviews == old(reviews))
              && (ValidId(userId) ==>
                    && users == (if userId.value.s in old(users) then
                                   old(users)[userId.value.s := old(users)[userId.value.s] +
                                     Lifecycle.CompletedUserPatch(old(users)[userId.value.s], rating)]
                                 else old(users))
                    && (r.Ok? <==> "creatorId" in old(tasks)[taskId])
                    && (r.Ok? ==> reviews == old(reviews)[reviewId := Lifecycle.CompletionReview(
                                    taskId, old(tasks)[taskId]["creatorId"], userId.value.s, rating, review, now)])
                    && (r.Err? ==> reviews == old(reviews))))
    {
      if !ValidKey(taskId) {
        return Err("invalid task id");
      }
      if taskId !in tasks {
        return Ok(());
      }
      var task := tasks[taskId];
      var appId := Get(task, "matchedApplicationId");
      if !Truthy(appId) {
        return Ok(());
      }
      if !ValidId(appId) {
        return Err("invalid application id");
      }
      if appId.value.s !in applications {
        return Ok(());
      }
      var userId := Get(applications[appId.value.s], "applicantId");
      tasks := tasks[taskId := task + Lifecycle.CompletePatch(now)];
      if !ValidId(userId) {
        return Err("invalid user id");
      }
      var u := userId.value.s;
      if u in users {
        var patch := Lifecycle.CompletedUserPatch(users[u], rating);
        Lifecycle.CompletedUserKeepsCount(users[u], rating);
        users := users[u := users[u] + patch];
      }
      if "creatorId" !in task {
        return Err("reviewer undefined");
      }
      reviews := reviews[reviewId := Lifecycle.CompletionReview(taskId, task["creatorId"], u, rating, review, now)];
      r := Ok(());
    }

    /** `createReview`: adds the review and, when the reviewed user exists, folds its rating into
        the user's mean. */
    method CreateReview(d: Lifecycle.ReviewData, reviewId: string, now: int) returns (r: Result<string, string>)
      requires Valid() && reviewId !in reviews
      modifies this`users, this`reviews
      ensures Valid()
      ensures reviews == old(reviews)[reviewId := Lifecycle.NewReview(d, now)]
      ensures r.Ok? <==> ValidKey(d.userId)
      ensures r.Ok? ==> r.value == reviewId
      ensures users ==
        if ValidKey(d.userId) && d.userId in old(users) then
          old(users)[d.userId := old(users)[d.userId] + Lifecycle.RatingPatch(old(users)[d.userId], d.rating)]
        else old(users)
    {
      reviews := reviews[reviewId := Lifecycle.NewReview(d, now)];
      if !ValidKey(d.userId) {
        return Err("invalid user id");
      }
      if d.userId in users {
        var user := users[d.userId];
        Lifecycle.RatingPatchSpec(user, d.rating);
        users := users[d.userId := user + Lifecycle.RatingPatch(user, d.rating)];
      }
      r := Ok(reviewId);
    }

    /** `updateTask`: writes the sanitised patch over the stored task. */
    method UpdateTask(taskId: string, taskData: Doc, now: int) returns (r: Result<bool, string>)
      modifies this`tasks
      ensures r.Ok? <==> ValidKey(taskId) && taskId in old(tasks)
      ensures r.Ok? ==> r.value
      ensures r.Err? ==> tasks == old(tasks)
      ensures r.Ok? ==>
        tasks == old(tasks)[taskId := TaskPatch.Apply(old(tasks)[taskId], TaskPatch.SanitizePatch(taskData, now))]
      ensures r.Ok? ==>
        (tasks.Keys == old(tasks).Keys &&
         (forall id :: id in tasks && id != taskId ==> tasks[id] == old(tasks)[id]) &&
         (forall k :: k in TaskPatch.Protected ==> Get(tasks[taskId], k) == Get(old(tasks)[taskId], k)) &&
         Get(tasks[taskId], "updatedAt") == Some(Time(now)) &&
         (forall k :: k in taskData && k !in TaskPatch.Protected && k != "imageUrls" && k != "updatedAt" ==>
            Get(tasks[taskId], k) == Some(taskData[k])) &&
         (forall k :: k in old(tasks)[taskId] && k !in taskData && k != "updatedAt" ==>
            tasks[taskId][k] == old(tasks)[taskId][k]) &&
         ("imageUrls" in taskData ==>
            tasks[taskId]["imageUrls"] ==
              (if Truthy(Some(taskData["imageUrls"])) && !taskData["imageUrls"].Arr? then Arr([])
               else taskData["imageUrls"])))
    {
      var updateData := TaskPatch.SanitizePatch(taskData, now);
      if !ValidKey(taskId) {
        return Err("invalid task id");
      }
      if taskId !in tasks {
        return Err("task not found");
      }
      TaskPatch.ApplyKeepsProtected(tasks[taskId], updateData);
      TaskPatch.ApplyWritesPatch(tasks[taskId], updateData);
      tasks := tasks[taskId := TaskPatch.Apply(tasks[taskId], updateData)];
      r := Ok(true);
    }

    /** `bookmarkTask`: `arrayUnion` of the task id into the user's `bookmarkedTasks`. */
    method BookmarkTask(userId: string, taskId: string) returns (r: Result<bool, string>)
      requires Valid()
      modifies this`users
      ensures Valid()
      ensures r.Ok? <==> ValidKey(userId) && userId in old(users)
      ensures r.Ok? ==>
        (r.value &&
         users == old(users)[userId := old(users)[userId]["bookmarkedTasks" :=
                    ArrayUnion(Get(old(users)[userId], "bookmarkedTasks"), Str(taskId))]])
      ensures r.Err? ==> users == old(users)
    {
      if !ValidKey(userId) {
        return Err("invalid user id");
      }
      if userId !in users {
        return Err("user document not found");
      }
      var user := users[userId];
      users := users[userId := user["bookmarkedTasks" := ArrayUnion(Get(user, "bookmarkedTasks"), Str(taskId))]];
      r := Ok(true);
    }

    /** `removeBookmark`: `arrayRemove` of the task id from the user's `bookmarkedTasks`. */
    method RemoveBookmark(userId: string, taskId: string) returns (r: Result<bool, string>)
      requires Valid()
      modifies this`users
      ensures Valid()
      ensures r.Ok? <==> ValidKey(userId) && userId in old(users)
      ensures r.Ok? ==>
        (r.value &&
         users == old(users)[userId := old(users)[userId]["bookmarkedTasks" :=
                    ArrayRemove(Get(old(users)[userId], "bookmarkedTasks"), Str(taskId))]])
      ensures r.Err? ==> users == old(users)
    {
      if !ValidKey(userId) {
        return Err("invalid user id");
      }
      if userId !in users {
        return Err("user document not found");
      }
      var user := users[userId];
      users := users[userId := user["bookmarkedTasks" := ArrayRemove(Get(user, "bookmarkedTasks"), Str(taskId))]];
      r := Ok(true);
    }

    /** `isTaskBookmarked`: every failure, including a failed read (`readFails`), answers
        `false`. */
    method IsTaskBookmarked(userId: string, taskId: string, readFails: bool) returns (b: bool)
      ensures b <==>
        (ValidKey(userId) && !readFails && userId in users &&
         IncludesOrEmpty(Get(users[userId], "bookmarkedTasks"), taskId) == Ok(true))
    {
      if !ValidKey(userId) || readFails || userId !in users {
        return false;
      }
      var found := IncludesOrEmpty(Get(users[userId], "bookmarkedTasks"), taskId);
      b := found == Ok(true);
    }

    /** `getBookmarkedTasks`: the bookmarked tasks that still exist, normalised, in bookmark
        order; a failed read (`readFails`) is rethrown. */
    method GetBookmarkedTasks(userId: string, readFails: bool) returns (r: Result<seq<Doc>, string>)
      ensures !ValidKey(userId) || readFails ==> r.Err?
      ensures ValidKey(userId) && !readFails && userId !in users ==> r == Ok([])
      ensures ValidKey(userId) && !readFails && userId in users ==>
        var ids := OrElse(Get(users[userId], "bookmarkedTasks"), Arr([]));
        && (!ids.Arr? ==> r.Err?)
        && (ids.Arr? && (exists i :: 0 <= i < |ids.items| && !ValidId(Some(ids.items[i]))) ==> r.Err?)
        && (ids.Arr? && (forall i :: 0 <= i < |ids.items| ==> ValidId(Some(ids.items[i]))) ==>
              r == Ok(Map(NormalizeFound, Filter(Found, LookupSpec(ids.items)))))
    {
      if !ValidKey(userId) || readFails {
        return Err("bookmarks could not be read");
      }
      if userId !in users {
        return Ok([]);
      }
      var ids := OrElse(Get(users[userId], "bookmarkedTasks"), Arr([]));
      if !ids.Arr? {
        return Err("bookmarkedTasks is not an array");
      }
      if ids.items == [] {
        assert LookupSpec(ids.items) == [];
        assert Filter(Found, LookupSpec(ids.items)) == [];
        assert Map(NormalizeFound, Filter(Found, LookupSpec(ids.items))) == [];
        return Ok([]);
      }
      if exists i :: 0 <= i < |ids.items| && !ValidId(Some(ids.items[i])) {
        return Err("invalid task id");
      }
      var found := Lookup(ids.items);
      BookmarkedInOrder(found);
      r := Ok(Bookmarked(found));
    }

    /** The task documents for a list of ids: `None` for an id without a document. */
    ghost function LookupSpec(ids: seq<Value>): (found: seq<Option<StoredDoc>>)
      reads this
      requires forall i :: 0 <= i < |ids| ==> ValidId(Some(ids[i]))
      ensures |found| == |ids|
    {
      seq(|ids|, i requires 0 <= i < |ids| && ValidId(Some(ids[i])) reads this =>
        if ids[i].s in tasks then Some(StoredDoc(ids[i].s, tasks[ids[i].s])) else None)
    }

    /** `Promise.all(bookmarkedIds.map(taskId => getDoc(doc(db, 'tasks', taskId))))`. */
    method Lookup(ids: seq<Value>) returns (found: seq<Option<StoredDoc>>)
      requires forall i :: 0 <= i < |ids| ==> ValidId(Some(ids[i]))
      ensures found == LookupSpec(ids)
    {
      found := [];
      var i := 0;
      while i < |ids|
        invariant 0 <= i <= |ids|
        invariant found == LookupSpec(ids[..i])
      {
        var id := ids[i].s;
        found := found + [if id in tasks then Some(StoredDoc(id, tasks[id])) else None];
        i := i + 1;
      }
      assert ids[..|ids|] == ids;
    }

    /** The tasks collection in the store's order. */
    ghost predicate Enumerates(order: seq<string>)
      reads this
    {
      && (forall i :: 0 <= i < |order| ==> order[i] in tasks)
      && (forall i, j :: 0 <= i < j < |order| ==> order[i] != order[j])
      && (forall id :: id in tasks ==> id in order)
    }

    function Snapshot(order: seq<string>): (ds: seq<StoredDoc>)
      reads this
      requires forall i :: 0 <= i < |order| ==> order[i] in tasks
      ensures |ds| == |order|
      ensures forall i :: 0 <= i < |order| ==> ds[i] == StoredDoc(order[i], tasks[order[i]])
    {
      seq(|order|, i requires 0 <= i < |order| && order[i] in tasks reads this => StoredDoc(order[i], tasks[order[i]]))
    }

    /** `getTasks(filters)`, with the collection returned in the order `order` and with the
        store calls that fail named by the flags: the filtered query, the fallback scan and
        the profile lookups. */
    method GetTasks(filters: TaskFilters, order: seq<string>, queryFails: bool, scanFails: bool, lookupFails: bool)
      returns (r: Result<seq<Doc>, string>)
      requires Enumerates(order)
      ensures r == GetTasksSpec(filters, Snapshot(order), users, queryFails, scanFails, lookupFails)
    {
      var ds := Snapshot(order);
      var shown := Shown(filters, ds);
      if !queryFails && !SortThrows(shown) {
        var ts := SortAndEnrich(shown, users, lookupFails);
        return Ok(ts);
      }
      if scanFails {
        return Err("tasks could not be read");
      }
      var all := NormalizeAll(ds);
      var ids := UniqueIds(CreatorIds(all));
      if ids != [] && (lookupFails || exists i :: 0 <= i < |ids| && !ValidId(ids[i])) {
        return Ok(all);
      }
      var profiles := CollectProfiles(ids, users);
      r := Ok(EnrichAll(all, profiles));
    }
  }

  // ---------------------------------------------------------------------------------------
  // Lemmas

  /** Bookmarking twice leaves the same bookmarks as bookmarking once, and removing a bookmark
      that was just added to a list without it restores the list. */
  lemma BookmarkRoundTrip(bookmarks: seq<Value>, taskId: string)
    ensures ArrayUnion(Some(ArrayUnion(Some(Arr(bookmarks)), Str(taskId))), Str(taskId)) ==
            ArrayUnion(Some(Arr(bookmarks)), Str(taskId))
    ensures Str(taskId) !in bookmarks ==>
      ArrayRemove(Some(ArrayUnion(Some(Arr(bookmarks)), Str(taskId))), Str(taskId)) == Arr(bookmarks)
    ensures IncludesOrEmpty(Some(ArrayUnion(Some(Arr(bookmarks)), Str(taskId))), taskId) == Ok(true)
    ensures IncludesOrEmpty(Some(ArrayRemove(Some(Arr(bookmarks)), Str(taskId))), taskId) == Ok(false)
  {
    ArrayUnionIdempotent(Some(Arr(bookmarks)), Str(taskId));
    if Str(taskId) !in bookmarks {
      ArrayRemoveUndoesUnion(bookmarks, Str(taskId));
    }
  }
}
