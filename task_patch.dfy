/** The patch `updateTask` writes: the caller's task data without the fields a task owner may
    not change, with a non-array `imageUrls` replaced by an empty array and with a fresh
    `updatedAt`. */
module TaskPatch {
  import opened Wrappers
  import opened Documents

  /** The fields `updateTask` strips from the caller's data. */
  const Protected: set<string> := {"id", "creatorId", "createdAt", "applications", "status"}

  /** `const { id, creatorId, createdAt, applications, status, ...updateData } = taskData`,
      then the `imageUrls` repair and `updatedAt = serverTimestamp()`, with the server's time
      `now` in milliseconds. */
  function SanitizePatch(taskData: Doc, now: int): (updateData: Doc)
    ensures updateData.Keys == taskData.Keys - Protected + {"updatedAt"}
    ensures forall k :: k in Protected ==> k !in updateData
    ensures updateData["updatedAt"] == Time(now)
    ensures "imageUrls" in taskData ==>
      updateData["imageUrls"] ==
        (if Truthy(Some(taskData["imageUrls"])) && !taskData["imageUrls"].Arr? then Arr([])
         else taskData["imageUrls"])
    ensures forall k :: k in taskData && k !in Protected && k != "imageUrls" && k != "updatedAt" ==>
      updateData[k] == taskData[k]
  {
    var stripped := map k | k in taskData.Keys && k !in Protected :: taskData[k];
    var repaired :=
      if Truthy(Get(stripped, "imageUrls")) && !stripped["imageUrls"].Arr? then stripped["imageUrls" := Arr([])]
      else stripped;
    repaired["updatedAt" := Time(now)]
  }

  /** `updateDoc(taskRef, updateData)`: the stored task with the patch's fields written over
      it. */
  function Apply(task: Doc, patch: Doc): Doc
  {
    task + patch
  }

  // ---------------------------------------------------------------------------------------
  // Lemmas

  /** A patch without the protected fields leaves them as they were in the stored task: an
      owner's update can neither reopen nor transfer a task. */
  lemma ApplyKeepsProtected(task: Doc, patch: Doc)
    requires forall k :: k in Protected ==> k !in patch
    ensures forall k :: k in Protected ==> Get(Apply(task, patch), k) == Get(task, k)
    ensures Get(Apply(task, patch), "status") == Get(task, "status")
    ensures Get(Apply(task, patch), "creatorId") == Get(task, "creatorId")
  {
  }

  /** Every field of the patch is written, and every field it does not name is kept. */
  lemma ApplyWritesPatch(task: Doc, patch: Doc)
    ensures forall k :: k in patch ==> Apply(task, patch)[k] == patch[k]
    ensures forall k :: k in task && k !in patch ==> Apply(task, patch)[k] == task[k]
    ensures Apply(task, patch).Keys == task.Keys + patch.Keys
  {
  }
}
