/** How `getTasks` and `getBookmarkedTasks` turn stored task documents into the task objects
    the screens show: the image-field normalisation, the query and category filters, the
    newest-first sort, the creator de-duplication and the creator enrichment. */
module TaskShaping {
  import opened Wrappers
  import opened Documents
  import opened Collections

  /** A document as a query returns it: its id and its data. */
  datatype StoredDoc = StoredDoc(id: string, data: Doc)

  // ---------------------------------------------------------------------------------------
  // Image fields

  /** `Array.isArray(data.imageUrls) ? data.imageUrls : []`. */
  function ImageUrls(data: Doc): seq<Value>
  {
    match Get(data, "imageUrls")
    case Some(Arr(items)) => items
    case _ => []
  }

  /** `data.imageUrl || (imageUrls.length > 0 ? imageUrls[0] : null)`. */
  function ImageUrl(data: Doc): Value
  {
    var urls := ImageUrls(data);
    OrElse(Get(data, "imageUrl"), if |urls| > 0 then urls[0] else Null)
  }

  /** `{ id: doc.id, ...data, imageUrls, imageUrl }`: a stored `id` field wins over the
      document id, and both image fields are replaced by their normal form. */
  function Normalize(d: StoredDoc): Doc
  {
    (map["id" := Str(d.id)] + d.data)["imageUrls" := Arr(ImageUrls(d.data))]["imageUrl" := ImageUrl(d.data)]
  }

  function NormalizeAll(ds: seq<StoredDoc>): (r: seq<Doc>)
    ensures |r| == |ds|
    ensures forall i :: 0 <= i < |ds| ==> r[i] == Normalize(ds[i])
  {
    seq(|ds|, i requires 0 <= i < |ds| => Normalize(ds[i]))
  }

  // ---------------------------------------------------------------------------------------
  // Filters

  /** The filters a screen passes to `getTasks`. */
  datatype TaskFilters = TaskFilters(creatorId: Option<string>, category: Option<string>)

  /** The one `where` clause of the query. */
  datatype QueryFilter = ByCreator(creatorId: string) | OpenOnly

  /** `creatorId == filters.creatorId` when that filter is truthy, `status == "open"` else. */
  function QueryFilterOf(f: TaskFilters): (q: QueryFilter)
    ensures q.ByCreator? <==> f.creatorId.Some? && f.creatorId.value != ""
    ensures q.ByCreator? ==> q.creatorId == f.creatorId.value
  {
    if f.creatorId.Some? && f.creatorId.value != "" then ByCreator(f.creatorId.value) else OpenOnly
  }

  predicate MatchesQuery(q: QueryFilter, data: Doc)
  {
    match q
    case ByCreator(c) => Get(data, "creatorId") == Some(Str(c))
    case OpenOnly => Get(data, "status") == Some(Str("open"))
  }

  /** The documents of the query result, in the store's order. */
  function QueryHits(q: QueryFilter, ds: seq<StoredDoc>): seq<StoredDoc>
  {
    Filter((d: StoredDoc) => MatchesQuery(q, d.data), ds)
  }

  /** `tasks.filter(task => task.category === filters.category)`, applied only when the
      category filter is truthy. */
  function FilterCategory(category: Option<string>, ts: seq<Doc>): seq<Doc>
  {
    if category.Some? && category.value != "" then
      Filter(t => Get(t, "category") == Some(Str(category.value)), ts)
    else ts
  }

  // ---------------------------------------------------------------------------------------
  // Newest-first sort

  /** What the comparator reads from `createdAt`: 0 when it is falsy, the timestamp's
      milliseconds when it is a timestamp, and `None` for any other value, on which
      `toDate()` is not a function and the comparator throws. */
  function CreatedAtKey(t: Doc): Option<int>
  {
    if !Truthy(Get(t, "createdAt")) then Some(0)
    else match t["createdAt"]
      case Time(ms) => Some(ms)
      case _ => None
  }

  function SortKey(t: Doc): int
  {
    match CreatedAtKey(t)
    case Some(k) => k
    case None => 0
  }

  /** The sort throws exactly when it has at least two tasks to compare and one of them has a
      `createdAt` the comparator cannot read: a sort of two or more elements passes every
      element to the comparator. */
  predicate SortThrows(ts: seq<Doc>)
  {
    |ts| >= 2 && exists i :: 0 <= i < |ts| && CreatedAtKey(ts[i]).None?
  }

  /** `ts` ordered by `key`, largest first. */
  predicate DescendingBy<T>(key: T -> int, ts: seq<T>)
  {
    forall i, j :: 0 <= i < j < |ts| ==> key(ts[i]) >= key(ts[j])
  }

  predicate NewestFirst(ts: seq<Doc>)
  {
    DescendingBy(SortKey, ts)
  }

  /** `sorted` with `t` placed after every element whose key is at least `t`'s: the step of a
      stable sort that takes the elements in order. */
  function InsertBy<T>(key: T -> int, sorted: seq<T>, t: T): seq<T>
  {
    if sorted == [] || key(sorted[|sorted| - 1]) >= key(t) then sorted + [t]
    else InsertBy(key, sorted[..|sorted| - 1], t) + [sorted[|sorted| - 1]]
  }

  /** The stable sort by `key`, largest first. */
  function SortBy<T>(key: T -> int, ts: seq<T>): seq<T>
  {
    if ts == [] then [] else InsertBy(key, SortBy(key, ts[..|ts| - 1]), ts[|ts| - 1])
  }

  /** The order `tasks.sort((a, b) => dateB - dateA)` leaves: newest first, equally old
      tasks in their original order (the sort is stable). */
  function SortNewestFirst(ts: seq<Doc>): seq<Doc>
  {
    SortBy(SortKey, ts)
  }

  /** The sort as `getTasks` runs it, in place: an insertion sort. */
  method SortInPlace<T>(key: T -> int, a: array<T>)
    modifies a
    ensures a[..] == SortBy(key, old(a[..]))
  {
    ghost var orig := a[..];
    var i := 0;
    while i < a.Length
      invariant 0 <= i <= a.Length
      invariant a[..i] == SortBy(key, orig[..i])
      invariant a[i..] == orig[i..]
    {
      assert a[i] == orig[i];
      InsertInPlace(key, a, i);
      assert orig[..i + 1][..i] == orig[..i];
      assert a[i + 1..] == orig[i + 1..];
      i := i + 1;
    }
    assert orig[..a.Length] == orig;
  }

  /** One step of the insertion sort: moves `a[i]` into the sorted prefix `a[..i]`. */
  method InsertInPlace<T>(key: T -> int, a: array<T>, i: nat)
    requires i < a.Length
    modifies a
    ensures a[..i + 1] == InsertBy(key, old(a[..i]), old(a[i]))
    ensures a[i + 1..] == old(a[i + 1..])
  {
    ghost var r := a[..i];
    ghost var rest := a[i + 1..];
    var x := a[i];
    var j := i;
    while j > 0 && key(a[j - 1]) < key(x)
      invariant 0 <= j <= i
      invariant forall k :: 0 <= k < j ==> a[k] == r[k]
      invariant forall k :: j < k <= i ==> a[k] == r[k - 1]
      invariant forall k :: j <= k < i ==> key(r[k]) < key(x)
      invariant a[i + 1..] == rest
    {
      a[j] := a[j - 1];
      j := j - 1;
    }
    a[j] := x;
    InsertAt(key, r, x, j);
    ghost var ins := r[..j] + [x] + r[j..];
    forall k | 0 <= k <= i
      ensures a[k] == ins[k]
    {
      if k < j {
        assert ins[k] == r[k];
      } else if k > j {
        assert ins[k] == r[k - 1];
      }
    }
    assert a[..i + 1] == ins;
  }

  /** Where `InsertBy` puts `t`: after the last element whose key is at least `t`'s. */
  lemma {:induction false} InsertAt<T>(key: T -> int, r: seq<T>, t: T, j: nat)
    requires j <= |r|
    requires j == 0 || key(r[j - 1]) >= key(t)
    requires forall k :: j <= k < |r| ==> key(r[k]) < key(t)
    ensures InsertBy(key, r, t) == r[..j] + [t] + r[j..]
    decreases |r|
  {
    if j < |r| {
      var p := r[..|r| - 1];
      InsertAt(key, p, t, j);
      assert p[..j] == r[..j];
      assert r[j..] == p[j..] + [r[|r| - 1]];
    }
  }

  // ---------------------------------------------------------------------------------------
  // Creator enrichment

  /** `tasks.map(task => task.creatorId)`; `None` for a task without one. */
  function CreatorIds(ts: seq<Doc>): seq<Option<Value>>
  {
    Map(t => Get(t, "creatorId"), ts)
  }

  /** `Array.from(new Set(ids))`: each id once, in order of first appearance. */
  function UniqueIds(ids: seq<Option<Value>>): seq<Option<Value>>
  {
    FirstByKey(x => x, ids)
  }

  /** The profiles `getDoc` finds, keyed by user id. */
  function Profiles(ids: seq<Option<Value>>, users: map<string, Doc>): (p: map<string, Doc>)
    ensures forall s :: s in p <==> s in users && Some(Str(s)) in ids
    ensures forall s :: s in p ==> p[s] == users[s]
  {
    map s | s in users.Keys && Some(Str(s)) in ids :: users[s]
  }

  /** The profile map the batch leaves: empty when there is no id, when any id is not a
      valid document id (building its reference throws) or when a lookup fails. */
  function BatchProfiles(ids: seq<Option<Value>>, users: map<string, Doc>, lookupFails: bool): map<string, Doc>
  {
    if ids == [] || lookupFails || exists i :: 0 <= i < |ids| && !ValidId(ids[i]) then map[]
    else Profiles(ids, users)
  }

  /** The profile fetch as `getTasks` runs it: look up each id and keep the ones that exist. */
  method CollectProfiles(ids: seq<Option<Value>>, users: map<string, Doc>) returns (profiles: map<string, Doc>)
    requires forall i :: 0 <= i < |ids| ==> ValidId(ids[i])
    ensures profiles == Profiles(ids, users)
  {
    profiles := map[];
    var i := 0;
    while i < |ids|
      invariant 0 <= i <= |ids|
      invariant profiles == Profiles(ids[..i], users)
    {
      var id := ids[i].value.s;
      if id in users {
        profiles := profiles[id := users[id]];
      }
      assert ids[..i + 1] == ids[..i] + [ids[i]];
      i := i + 1;
    }
    assert ids[..|ids|] == ids;
  }

  /** `creatorProfiles[task.creatorId]`. */
  function ProfileFor(profiles: map<string, Doc>, creatorId: Option<Value>): Option<Doc>
  {
    match creatorId
    case Some(Str(s)) => if s in profiles then Some(profiles[s]) else None
    case _ => None
  }

  /** The profile field `creatorProfile?.f`, `undefined` without a profile. */
  function ProfileField(profile: Option<Doc>, f: string): Option<Value>
  {
    if profile.Some? then Get(profile.value, f) else None
  }

  const EnrichedFields: set<string> := {"creatorName", "creatorPhotoURL", "creatorRating"}

  /** `{ ...task, creatorName, creatorPhotoURL, creatorRating }` with the defaults
      `'Unbekannter Benutzer'`, `''` and `0`. */
  function Enrich(t: Doc, profile: Option<Doc>): (e: Doc)
    ensures e.Keys == t.Keys + EnrichedFields
    ensures forall k :: k in t && k !in EnrichedFields ==> e[k] == t[k]
    ensures e["creatorName"] == OrElse(ProfileField(profile, "displayName"), Str("Unbekannter Benutzer"))
    ensures e["creatorPhotoURL"] == OrElse(ProfileField(profile, "photoURL"), Str(""))
    ensures e["creatorRating"] == OrElse(ProfileField(profile, "rating"), Num(0.0))
  {
    t["creatorName" := OrElse(ProfileField(profile, "displayName"), Str("Unbekannter Benutzer"))]
     ["creatorPhotoURL" := OrElse(ProfileField(profile, "photoURL"), Str(""))]
     ["creatorRating" := OrElse(ProfileField(profile, "rating"), Num(0.0))]
  }

  function EnrichAll(ts: seq<Doc>, profiles: map<string, Doc>): (r: seq<Doc>)
    ensures |r| == |ts|
    ensures forall i :: 0 <= i < |ts| ==> r[i] == Enrich(ts[i], ProfileFor(profiles, Get(ts[i], "creatorId")))
  {
    seq(|ts|, i requires 0 <= i < |ts| => Enrich(ts[i], ProfileFor(profiles, Get(ts[i], "creatorId"))))
  }

  // ---------------------------------------------------------------------------------------
  // The whole read

  /** The tasks of the primary path before enrichment: the query hits, normalised, filtered by
      category. */
  function Shown(filters: TaskFilters, ds: seq<StoredDoc>): seq<Doc>
  {
    FilterCategory(filters.category, NormalizeAll(QueryHits(QueryFilterOf(filters), ds)))
  }

  /** What `getTasks(filters)` returns, given the collection in the store's order and which of
      the calls to the store fail: the filtered query, the unfiltered fallback scan and the
      profile lookup. The filtered path is abandoned for the fallback when its query fails or
      its sort throws; the fallback itself fails only when its scan does, and returns its
      tasks without creator fields when enriching them throws. */
  function GetTasksSpec(filters: TaskFilters, ds: seq<StoredDoc>, users: map<string, Doc>,
                        queryFails: bool, scanFails: bool, lookupFails: bool): Result<seq<Doc>, string>
  {
    var shown := Shown(filters, ds);
    if !queryFails && !SortThrows(shown) then
      var sorted := SortNewestFirst(shown);
      Ok(EnrichAll(sorted, BatchProfiles(UniqueIds(CreatorIds(sorted)), users, lookupFails)))
    else if scanFails then Err("tasks could not be read")
    else
      var all := NormalizeAll(ds);
      var ids := UniqueIds(CreatorIds(all));
      if ids != [] && (lookupFails || exists i :: 0 <= i < |ids| && !ValidId(ids[i])) then Ok(all)
      else Ok(EnrichAll(all, Profiles(ids, users)))
  }

  /** The primary path of `getTasks` after the query: sort the shown tasks in place, newest
      first, fetch the profiles of their creators and enrich every task with its creator's. */
  method SortAndEnrich(shown: seq<Doc>, users: map<string, Doc>, lookupFails: bool) returns (ts: seq<Doc>)
    ensures ts == EnrichAll(SortNewestFirst(shown), BatchProfiles(UniqueIds(CreatorIds(SortNewestFirst(shown))), users, lookupFails))
  {
    var a := new Doc[|shown|](i requires 0 <= i < |shown| => shown[i]);
    assert a[..] == shown;
    SortInPlace(SortKey, a);
    var sorted := a[..];
    var ids := UniqueIds(CreatorIds(sorted));
    var profiles: map<string, Doc> := map[];
    if ids != [] && !lookupFails && forall i :: 0 <= i < |ids| ==> ValidId(ids[i]) {
      profiles := CollectProfiles(ids, users);
    }
    ts := EnrichAll(sorted, profiles);
  }

  /** What `getBookmarkedTasks` returns for the documents fetched for the bookmarked ids:
      the ones that exist, normalised, in bookmark order. */
  function Bookmarked(found: seq<Option<StoredDoc>>): seq<Doc>
  {
    if found == [] then []
    else (if found[0].Some? then [Normalize(found[0].value)] else []) + Bookmarked(found[1..])
  }

  // ---------------------------------------------------------------------------------------
  // Lemmas

  /** The normalisation rule: `imageUrls` is the stored array or `[]`; `imageUrl` is the stored
      one when truthy, else the first url, else `null`; `id` is the stored field if there is
      one, else the document id; every other field passes through. */
  lemma NormalizeFields(d: StoredDoc)
    ensures var t := Normalize(d);
      && t.Keys == d.data.Keys + {"id", "imageUrls", "imageUrl"}
      && t["imageUrls"] == (if Get(d.data, "imageUrls").Some? && d.data["imageUrls"].Arr? then d.data["imageUrls"] else Arr([]))
      && (Truthy(Get(d.data, "imageUrl")) ==> t["imageUrl"] == d.data["imageUrl"])
      && (!Truthy(Get(d.data, "imageUrl")) && |t["imageUrls"].items| > 0 ==> t["imageUrl"] == t["imageUrls"].items[0])
      && (!Truthy(Get(d.data, "imageUrl")) && t["imageUrls"].items == [] ==> t["imageUrl"] == Null)
      && t["id"] == (if "id" in d.data then d.data["id"] else Str(d.id))
      && (forall k :: k in d.data && k !in {"imageUrls", "imageUrl"} ==> t[k] == d.data[k])
  {
  }

  /** Normalising a task that is already normal changes nothing. */
  lemma NormalizeIdempotent(d: StoredDoc)
    ensures Normalize(StoredDoc(d.id, Normalize(d))) == Normalize(d)
  {
    var t := Normalize(d);
    assert ImageUrls(t) == ImageUrls(d.data);
    assert ImageUrl(t) == ImageUrl(d.data);
  }

  /** Two documents from the store: one with only a legacy `imageUrl`, one with only an
      `imageUrls` array. */
  lemma NormalizeExamples()
    ensures var t := Normalize(StoredDoc("t1", map["imageUrl" := Str("a.png")]));
      t["imageUrls"] == Arr([]) && t["imageUrl"] == Str("a.png") && t["id"] == Str("t1")
    ensures var t := Normalize(StoredDoc("t2", map["imageUrls" := Arr([Str("b.png"), Str("c.png")])]));
      t["imageUrls"] == Arr([Str("b.png"), Str("c.png")]) && t["imageUrl"] == Str("b.png")
    ensures var t := Normalize(StoredDoc("t3", map["imageUrls" := Str("b.png")]));
      t["imageUrls"] == Arr([]) && t["imageUrl"] == Null
  {
  }

  /** The query keeps exactly the documents of the chosen creator when a creator is given, and
      exactly the open ones otherwise, in the store's order. */
  lemma QueryHitsSpec(filters: TaskFilters, ds: seq<StoredDoc>)
    ensures var hits := QueryHits(QueryFilterOf(filters), ds);
      && IsSubsequence(hits, ds)
      && (forall i :: 0 <= i < |hits| ==>
            if filters.creatorId.Some? && filters.creatorId.value != "" then
              Get(hits[i].data, "creatorId") == Some(Str(filters.creatorId.value))
            else Get(hits[i].data, "status") == Some(Str("open")))
      && (forall i :: 0 <= i < |ds| && MatchesQuery(QueryFilterOf(filters), ds[i].data) ==> ds[i] in hits)
  {
    FilterIsSubsequence((d: StoredDoc) => MatchesQuery(QueryFilterOf(filters), d.data), ds);
  }

  /** The category filter keeps exactly the tasks whose category equals the chosen one, in
      order, and keeps everything when no category is chosen. */
  lemma FilterCategorySpec(category: Option<string>, ts: seq<Doc>)
    ensures var r := FilterCategory(category, ts);
      && IsSubsequence(r, ts)
      && (category.None? || category.value == "" ==> r == ts)
      && (category.Some? && category.value != "" ==>
            (forall i :: 0 <= i < |r| ==> Get(r[i], "category") == Some(Str(category.value))) &&
            (forall i :: 0 <= i < |ts| && Get(ts[i], "category") == Some(Str(category.value)) ==> ts[i] in r))
  {
    if category.Some? && category.value != "" {
      FilterIsSubsequence(t => Get(t, "category") == Some(Str(category.value)), ts);
    } else {
      SubsequenceRefl(ts);
    }
  }

  lemma {:induction false} SubsequenceRefl<T>(s: seq<T>)
    ensures IsSubsequence(s, s)
  {
    if s != [] {
      SubsequenceRefl(s[1..]);
    }
  }

  lemma {:induction false} InsertByPermutes<T>(key: T -> int, sorted: seq<T>, t: T)
    ensures multiset(InsertBy(key, sorted, t)) == multiset(sorted) + multiset{t}
    decreases |sorted|
  {
    if sorted != [] && key(sorted[|sorted| - 1]) < key(t) {
      var p, last := sorted[..|sorted| - 1], sorted[|sorted| - 1];
      InsertByPermutes(key, p, t);
      assert sorted == p + [last];
    }
  }

  /** Every element `InsertBy` returns is `t` or one of `sorted`. */
  lemma InsertByElements<T>(key: T -> int, sorted: seq<T>, t: T, k: nat)
    requires k < |InsertBy(key, sorted, t)|
    ensures InsertBy(key, sorted, t)[k] == t || InsertBy(key, sorted, t)[k] in sorted
  {
    var q := InsertBy(key, sorted, t);
    InsertByPermutes(key, sorted, t);
    assert q[k] in multiset(q);
  }

  lemma {:induction false} InsertBySorted<T>(key: T -> int, sorted: seq<T>, t: T)
    requires DescendingBy(key, sorted)
    ensures DescendingBy(key, InsertBy(key, sorted, t))
    decreases |sorted|
  {
    if sorted != [] && key(sorted[|sorted| - 1]) < key(t) {
      var p, last := sorted[..|sorted| - 1], sorted[|sorted| - 1];
      InsertBySorted(key, p, t);
      var q := InsertBy(key, p, t);
      forall k | 0 <= k < |q|
        ensures key(q[k]) >= key(last)
      {
        InsertByElements(key, p, t, k);
      }
      assert InsertBy(key, sorted, t) == q + [last];
    }
  }

  /** The sort returns a permutation of its input, ordered by the key. */
  lemma SortBySpec<T>(key: T -> int, ts: seq<T>)
    ensures DescendingBy(key, SortBy(key, ts))
    ensures multiset(SortBy(key, ts)) == multiset(ts)
  {
    SortBySorted(key, ts);
    SortByPermutes(key, ts);
  }

  lemma {:induction false} SortBySorted<T>(key: T -> int, ts: seq<T>)
    ensures DescendingBy(key, SortBy(key, ts))
  {
    if ts != [] {
      var p := ts[..|ts| - 1];
      SortBySorted(key, p);
      InsertBySorted(key, SortBy(key, p), ts[|ts| - 1]);
    }
  }

  lemma {:induction false} SortByPermutes<T>(key: T -> int, ts: seq<T>)
    ensures multiset(SortBy(key, ts)) == multiset(ts)
  {
    if ts != [] {
      var p := ts[..|ts| - 1];
      SortByPermutes(key, p);
      InsertByPermutes(key, SortBy(key, p), ts[|ts| - 1]);
      MultisetSnoc(ts);
    }
  }

  lemma MultisetSnoc<T>(ts: seq<T>)
    requires ts != []
    ensures multiset(ts) == multiset(ts[..|ts| - 1]) + multiset{ts[|ts| - 1]}
  {
    assert ts == ts[..|ts| - 1] + [ts[|ts| - 1]];
  }

  /** A sequence already in order is left as it is: equal keys keep their order. */
  lemma {:induction false} SortByKeepsSorted<T>(key: T -> int, ts: seq<T>)
    requires DescendingBy(key, ts)
    ensures SortBy(key, ts) == ts
  {
    if ts != [] {
      var p := ts[..|ts| - 1];
      SortByKeepsSorted(key, p);
      assert ts == p + [ts[|ts| - 1]];
    }
  }

  /** The tasks come back as a permutation of the shown ones, newest first, with a falsy
      `createdAt` counted as 0. */
  lemma SortNewestFirstSpec(ts: seq<Doc>)
    ensures NewestFirst(SortNewestFirst(ts))
    ensures multiset(SortNewestFirst(ts)) == multiset(ts)
    ensures |SortNewestFirst(ts)| == |ts|
  {
    SortBySpec(SortKey, ts);
    assert |multiset(SortNewestFirst(ts))| == |multiset(ts)|;
  }

  /** Tasks already newest first are left as they are, so equally old tasks keep their order. */
  lemma SortNewestFirstKeepsSorted(ts: seq<Doc>)
    requires NewestFirst(ts)
    ensures SortNewestFirst(ts) == ts
  {
    SortByKeepsSorted(SortKey, ts);
  }

  /** The creator-id list names every task's creator once. */
  lemma UniqueIdsSpec(ts: seq<Doc>)
    ensures var ids := UniqueIds(CreatorIds(ts));
      && (forall i, j :: 0 <= i < j < |ids| ==> ids[i] != ids[j])
      && (forall i :: 0 <= i < |ts| ==> Get(ts[i], "creatorId") in ids)
      && (forall i :: 0 <= i < |ids| ==> ids[i] in CreatorIds(ts))
  {
    var s := CreatorIds(ts);
    var ids := UniqueIds(s);
    FirstByKeySpec(x => x, s);
    assert Map(x => x, ids) == ids;
    forall i | 0 <= i < |ids|
      ensures ids[i] in s
    {
      FindFirstFindsKey(x => x, s, ids[i]);
    }
    forall i | 0 <= i < |ts|
      ensures Get(ts[i], "creatorId") in ids
    {
      assert s[i] == Get(ts[i], "creatorId");
    }
  }

  /** A task whose creator has no profile shows the default creator fields. */
  lemma EnrichDefaults(t: Doc)
    ensures var e := Enrich(t, None);
      e["creatorName"] == Str("Unbekannter Benutzer") && e["creatorPhotoURL"] == Str("") &&
      e["creatorRating"] == Num(0.0)
  {
  }

  /** The profiles the batch collects belong to creators of the listed tasks, and every one of
      them that exists is collected, unless the batch fails as a whole. */
  lemma BatchProfilesSpec(ts: seq<Doc>, users: map<string, Doc>, lookupFails: bool)
    ensures var p := BatchProfiles(UniqueIds(CreatorIds(ts)), users, lookupFails);
      && (forall s :: s in p ==> s in users && p[s] == users[s] && Some(Str(s)) in CreatorIds(ts))
      && (!lookupFails && (forall i :: 0 <= i < |ts| ==> ValidId(Get(ts[i], "creatorId"))) ==>
            forall i :: 0 <= i < |ts| && ts[i]["creatorId"].s in users ==>
              ProfileFor(p, Get(ts[i], "creatorId")) == Some(users[ts[i]["creatorId"].s]))
  {
    UniqueIdsSpec(ts);
    var ids := UniqueIds(CreatorIds(ts));
    if !lookupFails && (forall i :: 0 <= i < |ts| ==> ValidId(Get(ts[i], "creatorId"))) {
      forall i | 0 <= i < |ids|
        ensures ValidId(ids[i])
      {
        var k :| 0 <= k < |CreatorIds(ts)| && CreatorIds(ts)[k] == ids[i];
      }
      if ts != [] {
        assert Get(ts[0], "creatorId") in ids;
      }
    }
  }

  /** Without a failure the primary path returns the filtered tasks in the sort's order (a
      permutation of them, newest first, by SortNewestFirstSpec), each with the creator
      fields added and all of its other fields kept. */
  lemma GetTasksPrimary(filters: TaskFilters, ds: seq<StoredDoc>, users: map<string, Doc>,
                        scanFails: bool, lookupFails: bool)
    requires !SortThrows(Shown(filters, ds))
    ensures var r := GetTasksSpec(filters, ds, users, false, scanFails, lookupFails);
      var sorted := SortNewestFirst(Shown(filters, ds));
      && r.Ok?
      && |r.value| == |sorted| == |Shown(filters, ds)|
      && (forall i :: 0 <= i < |r.value| ==> r.value[i].Keys == sorted[i].Keys + EnrichedFields)
      && (forall i, k :: 0 <= i < |r.value| && k in sorted[i] && k !in EnrichedFields ==>
            r.value[i][k] == sorted[i][k])
  {
    var shown := Shown(filters, ds);
    var sorted := SortNewestFirst(shown);
    SortNewestFirstSpec(shown);
    assert |sorted| == |multiset(sorted)| == |multiset(shown)| == |shown|;
  }

  /** When the filtered path is abandoned and the scan succeeds, every stored task is returned
      in the store's order, with no status, category or sort applied. */
  lemma GetTasksFallback(filters: TaskFilters, ds: seq<StoredDoc>, users: map<string, Doc>,
                         queryFails: bool, lookupFails: bool)
    requires queryFails || SortThrows(Shown(filters, ds))
    ensures var r := GetTasksSpec(filters, ds, users, queryFails, false, lookupFails);
      && r.Ok?
      && |r.value| == |ds|
      && forall i :: 0 <= i < |ds| ==>
           forall k :: k in Normalize(ds[i]) && k !in EnrichedFields ==> r.value[i][k] == Normalize(ds[i])[k]
  {
  }

  /** In the fallback, a failing profile lookup leaves the tasks without creator fields. */
  lemma GetTasksFallbackUnenriched(filters: TaskFilters, ds: seq<StoredDoc>, users: map<string, Doc>,
                                   queryFails: bool)
    requires queryFails || SortThrows(Shown(filters, ds))
    requires ds != []
    ensures GetTasksSpec(filters, ds, users, queryFails, false, true) == Ok(NormalizeAll(ds))
  {
    var all := NormalizeAll(ds);
    UniqueIdsSpec(all);
    assert Get(all[0], "creatorId") in UniqueIds(CreatorIds(all));
  }

  /** When both the query and the scan fail, `getTasks` throws. */
  lemma GetTasksFails(filters: TaskFilters, ds: seq<StoredDoc>, users: map<string, Doc>, lookupFails: bool)
    ensures GetTasksSpec(filters, ds, users, true, true, lookupFails).Err?
  {
  }

  /** A fetched bookmark that exists. */
  predicate Found(o: Option<StoredDoc>)
  {
    o.Some?
  }

  /** The normalised task of a fetched bookmark; the empty document for a missing one. */
  function NormalizeFound(o: Option<StoredDoc>): Doc
  {
    if o.Some? then Normalize(o.value) else map[]
  }

  /** `found.filter(o => o.exists()).map(o => normalise(o))`: the bookmarks come back in the
      order of `bookmarkedTasks`, each existing one exactly once per bookmark. */
  lemma {:induction false} BookmarkedInOrder(found: seq<Option<StoredDoc>>)
    ensures Bookmarked(found) == Map(NormalizeFound, Filter(Found, found))
  {
    if found != [] {
      BookmarkedInOrder(found[1..]);
      var head := if Found(found[0]) then [found[0]] else [];
      assert Filter(Found, found) == head + Filter(Found, found[1..]);
      MapConcat(NormalizeFound, head, Filter(Found, found[1..]));
      if found[0].Some? {
        assert Map(NormalizeFound, head)[0] == NormalizeFound(found[0]);
        assert Map(NormalizeFound, head) == [Normalize(found[0].value)];
      } else {
        assert Map(NormalizeFound, head) == [];
      }
      assert Bookmarked(found) ==
        (if found[0].Some? then [Normalize(found[0].value)] else []) + Bookmarked(found[1..]);
    }
  }

  /** A fetched document is among the bookmarked tasks, normalised, exactly when it exists. */
  lemma {:induction false} BookmarkedSpec(found: seq<Option<StoredDoc>>)
    ensures |Bookmarked(found)| <= |found|
    ensures forall i :: 0 <= i < |found| && found[i].Some? ==> Normalize(found[i].value) in Bookmarked(found)
    ensures forall i :: 0 <= i < |Bookmarked(found)| ==>
      exists j :: 0 <= j < |found| && found[j].Some? && Bookmarked(found)[i] == Normalize(found[j].value)
  {
    if found != [] {
      BookmarkedSpec(found[1..]);
      var head := if found[0].Some? then [Normalize(found[0].value)] else [];
      var r := Bookmarked(found);
      assert r == head + Bookmarked(found[1..]);
      forall i | 0 <= i < |found| && found[i].Some?
        ensures Normalize(found[i].value) in r
      {
        if i > 0 { assert found[1..][i - 1] == found[i]; }
      }
      forall i | 0 <= i < |r|
        ensures exists j :: 0 <= j < |found| && found[j].Some? && r[i] == Normalize(found[j].value)
      {
        if i < |head| {
          assert found[0].Some? && r[i] == Normalize(found[0].value);
        } else {
          var j :| 0 <= j < |found[1..]| && found[1..][j].Some? && Bookmarked(found[1..])[i - |head|] == Normalize(found[1..][j].value);
          assert found[j + 1] == found[1..][j];
        }
      }
    }
  }
}
