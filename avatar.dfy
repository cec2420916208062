/** The decisions `uploadUserAvatar` and `uploadTaskImages` make before and around the
    upload itself: which files are accepted, how compression is configured, how a file name is
    made safe for a storage path, which base64 payloads are small enough for a Firestore
    document, and which urls an image batch returns. Compression, encoding and the upload are
    outcomes passed in. */
module AvatarUpload {
  import opened Wrappers
  import opened Collections
  import Text

  // ---------------------------------------------------------------------------------------
  // Validation

  /** The properties of a browser `File` the validation reads. */
  datatype UploadFile = UploadFile(name: string, mimeType: string, size: nat)

  /** Why `uploadUserAvatar` rejects a call, in the order it checks. */
  datatype UploadError = NoFile | NoUserId | UnsupportedType(mimeType: string) | TooLarge(size: nat)

  const ValidImageTypes: seq<string> := ["image/jpeg", "image/png", "image/webp", "image/gif"]

  /** 5 MiB. */
  const MaxAvatarBytes: nat := 5 * 1024 * 1024

  /** The input checks of `uploadUserAvatar`: a file, a user id, a supported image type and at
      most 5 MiB, rejected with the first check that fails. */
  function ValidateUpload(file: Option<UploadFile>, userId: string): (r: Result<UploadFile, UploadError>)
    ensures r.Ok? <==>
      (file.Some? && userId != "" && file.value.mimeType in ValidImageTypes && file.value.size <= MaxAvatarBytes)
    ensures r.Ok? ==> r.value == file.value
    ensures file.None? ==> r == Err(NoFile)
    ensures file.Some? && userId == "" ==> r == Err(NoUserId)
    ensures file.Some? && userId != "" && file.value.mimeType !in ValidImageTypes ==>
      r == Err(UnsupportedType(file.value.mimeType))
    ensures file.Some? && userId != "" && file.value.mimeType in ValidImageTypes && file.value.size > MaxAvatarBytes ==>
      r == Err(TooLarge(file.value.size))
  {
    if file.None? then Err(NoFile)
    else if userId == "" then Err(NoUserId)
    else if file.value.mimeType !in ValidImageTypes then Err(UnsupportedType(file.value.mimeType))
    else if file.value.size > MaxAvatarBytes then Err(TooLarge(file.value.size))
    else Ok(file.value)
  }

  lemma ValidateUploadExamples()
    ensures ValidateUpload(Some(UploadFile("me.png", "image/png", MaxAvatarBytes)), "u1").Ok?
    ensures ValidateUpload(Some(UploadFile("me.png", "image/png", MaxAvatarBytes + 1)), "u1") == Err(TooLarge(MaxAvatarBytes + 1))
    ensures ValidateUpload(Some(UploadFile("me.bmp", "image/bmp", 10)), "u1") == Err(UnsupportedType("image/bmp"))
    ensures ValidateUpload(Some(UploadFile("me.bmp", "image/bmp", MaxAvatarBytes + 1)), "") == Err(NoUserId)
  {
  }

  // ---------------------------------------------------------------------------------------
  // Compression settings

  datatype CompressionOptions = CompressionOptions(maxSizeMB: real, maxWidthOrHeight: nat)

  /** The options `uploadUserAvatar` compresses with: none for a GIF, which is uploaded as it
      is; strong compression when the image is stored as base64 in Firestore, milder when it
      goes to Firebase Storage. */
  function AvatarCompression(mimeType: string, useStorage: bool): (o: Option<CompressionOptions>)
    ensures o.None? <==> mimeType == "image/gif"
    ensures o.Some? ==> o.value.maxSizeMB <= 1.0
    ensures o.Some? && !useStorage ==> o.value.maxSizeMB < 1.0 && o.value.maxWidthOrHeight <= 500
    ensures o.Some? && !useStorage ==> o.value == CompressionOptions(0.3, 500)
    ensures o.Some? && useStorage ==> o.value == CompressionOptions(1.0, 1200)
  {
    if mimeType == "image/gif" then None
    else if !useStorage then Some(CompressionOptions(0.3, 500))
    else Some(CompressionOptions(1.0, 1200))
  }

  // ---------------------------------------------------------------------------------------
  // Safe file names

  predicate AllowedChar(c: char)
  {
    'a' <= c <= 'z' || 'A' <= c <= 'Z' || '0' <= c <= '9' || c == '.'
  }

  /** `name.replace(/[^a-zA-Z0-9.]/g, '_')`. */
  function Sanitize(name: string): (r: string)
    ensures |r| == |name|
    ensures forall i :: 0 <= i < |r| ==> r[i] == if AllowedChar(name[i]) then name[i] else '_'
  {
    seq(|name|, i requires 0 <= i < |name| => if AllowedChar(name[i]) then name[i] else '_')
  }

  /** The avatar's safe file name: sanitised and cut to 50 characters. */
  function SafeAvatarName(name: string): string
  {
    Take(Sanitize(name), 50)
  }

  /** `avatars/${userId}/avatar_${userId}_${timestamp}_${safeFileName}`. */
  function AvatarPath(userId: string, timestamp: nat, name: string): string
  {
    "avatars/" + userId + "/" + "avatar_" + userId + "_" + Text.NatToString(timestamp) + "_" + SafeAvatarName(name)
  }

  /** A safe name keeps every letter, digit and dot where it was, turns every other character
      into `_`, and is at most 50 characters long; so it has no `/` and cannot leave the
      folder it is put in. Sanitising a safe name again changes nothing. */
  lemma SafeAvatarNameSpec(name: string)
    ensures var s := SafeAvatarName(name);
      && |s| == (if |name| <= 50 then |name| else 50)
      && (forall i :: 0 <= i < |s| ==> (AllowedChar(s[i]) || s[i] == '_'))
      && (forall i :: 0 <= i < |s| ==> (AllowedChar(name[i]) ==> s[i] == name[i]))
      && (forall i :: 0 <= i < |s| ==> (!AllowedChar(name[i]) ==> s[i] == '_'))
      && '/' !in s
      && SafeAvatarName(s) == s
  {
    var s := SafeAvatarName(name);
    assert forall i :: 0 <= i < |s| ==> s[i] == Sanitize(name)[i];
    assert Sanitize(s) == s;
  }

  /** The avatar lands in the user's own folder under a name with no further `/` (for a user
      id without one). */
  lemma AvatarPathInFolder(userId: string, timestamp: nat, name: string)
    ensures var p := AvatarPath(userId, timestamp, name);
      var folder := "avatars/" + userId + "/";
      && p[..|folder|] == folder
      && ('/' !in userId ==> '/' !in p[|folder|..])
  {
    var folder := "avatars/" + userId + "/";
    var file := "avatar_" + userId + "_" + Text.NatToString(timestamp) + "_" + SafeAvatarName(name);
    assert AvatarPath(userId, timestamp, name) == folder + file;
    SafeAvatarNameSpec(name);
    DigitsHaveNoSlash(timestamp);
  }

  lemma DigitsHaveNoSlash(n: nat)
    ensures '/' !in Text.NatToString(n)
  {
    Text.NatToStringDigits(n);
    var d := Text.NatToString(n);
    assert forall i :: 0 <= i < |d| ==> d[i] != '/';
  }

  /** Two uploads of the same file at different times get different paths. */
  lemma AvatarPathDistinct(userId: string, t1: nat, t2: nat, name: string)
    requires t1 != t2
    ensures AvatarPath(userId, t1, name) != AvatarPath(userId, t2, name)
  {
    var head := "avatars/" + userId + "/" + "avatar_" + userId + "_";
    var tail := "_" + SafeAvatarName(name);
    var d1, d2 := Text.NatToString(t1), Text.NatToString(t2);
    assert AvatarPath(userId, t1, name) == head + d1 + tail;
    assert AvatarPath(userId, t2, name) == head + d2 + tail;
    if head + d1 + tail == head + d2 + tail {
      assert |d1| == |d2|;
      assert d1 == (head + d1 + tail)[|head|..|head| + |d1|];
      assert d2 == (head + d2 + tail)[|head|..|head| + |d2|];
      Text.NatToStringInjective(t1, t2);
    }
  }

  /** The safe name a task image gets: sanitised but not cut. */
  function SafeImageName(name: string): string
  {
    Sanitize(name)
  }

  /** The folder of a task's images: the task's own folder, or one named after the upload
      time when the task has no id yet. */
  function ImageFolder(taskId: Option<string>, now: nat): string
  {
    if taskId.Some? && taskId.value != "" then "tasks/" + taskId.value + "/images"
    else "tasks/images/" + Text.NatToString(now)
  }

  /** `${folderPath}/${timestamp}_${safeFileName}`. */
  function ImagePath(folder: string, timestamp: nat, name: string): string
  {
    folder + "/" + Text.NatToString(timestamp) + "_" + SafeImageName(name)
  }

  /** A task image path starts with the folder and its file part has no `/`; unlike the
      avatar name, the image name keeps its full length. */
  lemma ImagePathSpec(taskId: Option<string>, now: nat, timestamp: nat, name: string)
    ensures var folder := ImageFolder(taskId, now);
      var p := ImagePath(folder, timestamp, name);
      && p[..|folder| + 1] == folder + "/"
      && '/' !in p[|folder| + 1..]
      && |p| == |folder| + 2 + |Text.NatToString(timestamp)| + |name|
  {
    var folder := ImageFolder(taskId, now);
    var d := Text.NatToString(timestamp);
    var file := d + "_" + Sanitize(name);
    assert ImagePath(folder, timestamp, name) == (folder + "/") + file;
    DigitsHaveNoSlash(timestamp);
  }

  // ---------------------------------------------------------------------------------------
  // Base64 payload sizes

  const MiB: real := 1048576.0

  /** `imageDataUrl.length / 1024 / 1024 > 0.9`. */
  predicate NeedsEmergencyCompression(length: nat)
  {
    length as real / 1024.0 / 1024.0 > 0.9
  }

  /** `emergencyBase64.length / 1024 / 1024 > 0.95`. */
  predicate EmergencyTooLarge(length: nat)
  {
    length as real / 1024.0 / 1024.0 > 0.95
  }

  /** The thresholds in characters: 0.9 MiB is 943718.4 and 0.95 MiB is 996147.2 characters. */
  lemma ThresholdsInCharacters(length: nat)
    ensures NeedsEmergencyCompression(length) <==> length > 943718
    ensures EmergencyTooLarge(length) <==> length > 996147
  {
    var x := length as real / 1024.0 / 1024.0;
    assert x == length as real / MiB;
    assert x * MiB == length as real;
    if length > 943718 {
      assert length as real >= 943719.0;
    }
    if length > 996147 {
      assert length as real >= 996148.0;
    }
  }

  /** Why no avatar is stored in base64 mode. */
  datatype PayloadError = EmergencyFailed | StillTooLarge(length: nat)

  /** The data url the base64 branch of `uploadUserAvatar` writes to the user document: the
      encoded image if it is at most 0.9 MiB; otherwise the result of the emergency
      compression (`None` when it fails), if that is at most 0.95 MiB. */
  function StoredAvatar(dataUrl: string, emergency: Option<string>): (r: Result<string, PayloadError>)
    ensures !NeedsEmergencyCompression(|dataUrl|) ==> r == Ok(dataUrl)
    ensures NeedsEmergencyCompression(|dataUrl|) ==>
      (r.Ok? <==> emergency.Some? && !EmergencyTooLarge(|emergency.value|))
    ensures NeedsEmergencyCompression(|dataUrl|) && r.Ok? ==> r.value == emergency.value
  {
    if !NeedsEmergencyCompression(|dataUrl|) then Ok(dataUrl)
    else if emergency.None? then Err(EmergencyFailed)
    else if EmergencyTooLarge(|emergency.value|) then Err(StillTooLarge(|emergency.value|))
    else Ok(emergency.value)
  }

  /** Whatever happens, one copy of the data url written is at most 996147 characters. */
  lemma StoredAvatarFits(dataUrl: string, emergency: Option<string>)
    ensures var r := StoredAvatar(dataUrl, emergency);
      r.Ok? ==> |r.value| <= 996147 && (|r.value| as real) < MiB
  {
    ThresholdsInCharacters(|dataUrl|);
    if emergency.Some? {
      ThresholdsInCharacters(|emergency.value|);
    }
  }

  /** The fields the base64 branch writes the data url into, all in the same user document. */
  const AvatarUrlFields: seq<string> := ["avatarBase64", "photoURL", "avatarUrl"]

  /** The bytes the three copies of `dataUrl` take in the user document, by Firestore's
      storage size: a field name and a string value each count their UTF-8 bytes plus 1. A
      data url is ASCII, so its bytes are its characters. */
  function AvatarUrlBytes(dataUrl: string): nat
  {
    (|AvatarUrlFields[0]| + 1) + (|AvatarUrlFields[1]| + 1) + (|AvatarUrlFields[2]| + 1) +
    3 * (|dataUrl| + 1)
  }

  /** As written, the size checks look at one copy of the url: a url of 349514 to 943718
      characters is stored as is, and its three copies alone exceed the 1 MiB document limit. */
  lemma StoredAvatarOverflowsDocument(dataUrl: string, emergency: Option<string>)
    requires 349514 <= |dataUrl| <= 943718
    ensures StoredAvatar(dataUrl, emergency) == Ok(dataUrl)
    ensures AvatarUrlBytes(dataUrl) as real > MiB
  {
    ThresholdsInCharacters(|dataUrl|);
  }

  /** The size checks applied to what is written, the three copies of the url: the url is kept
      when they are at most 0.9 MiB, and otherwise replaced by the emergency compression when
      its three copies are at most 0.95 MiB. */
  function StoredAvatarFitting(dataUrl: string, emergency: Option<string>): (r: Result<string, PayloadError>)
    ensures !NeedsEmergencyCompression(3 * |dataUrl|) ==> r == Ok(dataUrl)
    ensures NeedsEmergencyCompression(3 * |dataUrl|) ==>
      (r.Ok? <==> emergency.Some? && !EmergencyTooLarge(3 * |emergency.value|))
    ensures NeedsEmergencyCompression(3 * |dataUrl|) && r.Ok? ==> r.value == emergency.value
  {
    if !NeedsEmergencyCompression(3 * |dataUrl|) then Ok(dataUrl)
    else if emergency.None? then Err(EmergencyFailed)
    else if EmergencyTooLarge(3 * |emergency.value|) then Err(StillTooLarge(|emergency.value|))
    else Ok(emergency.value)
  }

  /** With the checks applied to the three copies, the avatar fields always fit in a 1 MiB
      document, with room left for the other fields. */
  lemma StoredAvatarFittingFits(dataUrl: string, emergency: Option<string>)
    ensures var r := StoredAvatarFitting(dataUrl, emergency);
      r.Ok? ==> 3 * |r.value| <= 996147 && AvatarUrlBytes(r.value) <= 996182 &&
                (AvatarUrlBytes(r.value) as real) < MiB
  {
    ThresholdsInCharacters(3 * |dataUrl|);
    if emergency.Some? {
      ThresholdsInCharacters(3 * |emergency.value|);
    }
  }

  // ---------------------------------------------------------------------------------------
  // Task image batches

  /** A file of a batch: its name, and what compressing and then encoding or uploading it
      produced (`None` when compression gave nothing or a step threw). */
  datatype ImageFile = ImageFile(name: string, outcome: Option<string>)

  /** A file the loop reaches with a name and a result. */
  predicate Uploads(f: Option<ImageFile>)
  {
    f.Some? && f.value.name != "" && f.value.outcome.Some?
  }

  /** The urls of the files that upload, in their order. */
  function UploadedUrls(files: seq<Option<ImageFile>>): seq<string>
  {
    if files == [] then []
    else
      UploadedUrls(files[..|files| - 1]) +
      (if Uploads(files[|files| - 1]) then [files[|files| - 1].value.outcome.value] else [])
  }

  /** `uploadTaskImages`: for a signed-in user, the loop over the files that skips a missing
      file, a file without a name, and a file that fails to compress, encode or upload; a user
      who is not signed in gets no urls. */
  method UploadTaskImages(files: seq<Option<ImageFile>>, signedIn: bool) returns (urls: seq<string>)
    ensures urls == if signedIn then UploadedUrls(files) else []
  {
    urls := [];
    if |files| == 0 || !signedIn {
      return;
    }
    var i := 0;
    while i < |files|
      invariant 0 <= i <= |files|
      invariant urls == UploadedUrls(files[..i])
    {
      assert files[..i + 1][..i] == files[..i];
      var file := files[i];
      if file.None? || file.value.name == "" {
        i := i + 1;
        continue;
      }
      var compressed := file.value.outcome;
      if compressed.None? {
        i := i + 1;
        continue;
      }
      urls := urls + [compressed.value];
      i := i + 1;
    }
    assert files[..|files|] == files;
  }

  /** The urls are exactly the results of the files that upload, in the order of the files:
      one per such file and nothing for the others. */
  lemma {:induction false} UploadedUrlsSpec(files: seq<Option<ImageFile>>)
    ensures var urls := UploadedUrls(files);
      && |urls| == |Filter(Uploads, files)|
      && (forall i :: 0 <= i < |urls| ==> urls[i] == Filter(Uploads, files)[i].value.outcome.value)
  {
    if files != [] {
      var p, f := files[..|files| - 1], files[|files| - 1];
      assert files == p + [f];
      UploadedUrlsSpec(p);
      FilterSnoc(Uploads, p, f);
    }
  }

  /** A failed file does not stop the batch: the urls of a batch are the urls of its parts. */
  lemma {:induction false} UploadedUrlsConcat(a: seq<Option<ImageFile>>, b: seq<Option<ImageFile>>)
    ensures UploadedUrls(a + b) == UploadedUrls(a) + UploadedUrls(b)
    decreases |b|
  {
    if b == [] {
      assert a + b == a;
    } else {
      var b', y := b[..|b| - 1], b[|b| - 1];
      assert a + b == (a + b') + [y];
      assert (a + b)[..|a + b| - 1] == a + b';
      UploadedUrlsConcat(a, b');
    }
  }
}
