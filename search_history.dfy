/** Search history: `saveSearchQuery` records a normalised query in the user's personal
    history and in the shared trending list; recall (`getRecentSearches`) reads the newest
    entries back, keeps the first entry of each query and truncates to the limit. */
module SearchHistory {
  import opened Wrappers
  import opened Collections
  import Text

  /** A saved search: document id, normalised query, category and server timestamp. */
  datatype SearchEntry = SearchEntry(id: string, query: string, category: string, timestamp: int)

  /** A trending entry also records whether it was saved without a signed-in user. */
  datatype TrendingEntry = TrendingEntry(entry: SearchEntry, anonymized: bool)

  /** A recalled search, marked personal or trending. */
  datatype RecentSearch = RecentSearch(entry: SearchEntry, personal: bool)

  /** `searchQuery.trim().toLowerCase()`, or `None` for a query that is blank once trimmed. */
  function NormalizeQuery(q: string): Option<string>
  {
    if Text.Trim(q) == [] then None else Some(Text.Lower(Text.Trim(q)))
  }

  /** `category || 'all'`. */
  function CategoryOrAll(category: Option<string>): (c: string)
    ensures c != ""
    ensures category.Some? && category.value != "" ==> c == category.value
  {
    if category.Some? && category.value != "" then category.value else "all"
  }

  function QueryOf(e: SearchEntry): string
  {
    e.query
  }

  /** The first entry of every query, in order: what filling a `Map` keyed by query, and
      writing each key only the first time, leaves. */
  function Dedupe(entries: seq<SearchEntry>): seq<SearchEntry>
  {
    FirstByKey(QueryOf, entries)
  }

  /** The `forEach` that fills the `Map`. */
  method DedupeByQuery(entries: seq<SearchEntry>) returns (r: seq<SearchEntry>)
    ensures r == Dedupe(entries)
  {
    r := [];
    var seen: set<string> := {};
    var i := 0;
    while i < |entries|
      invariant 0 <= i <= |entries|
      invariant r == Dedupe(entries[..i])
      invariant forall q :: q in seen <==> q in Map(QueryOf, r)
    {
      var e := entries[i];
      assert entries[..i + 1][..i] == entries[..i];
      assert entries[..i + 1][i] == e;
      assert Dedupe(entries[..i + 1]) == if QueryOf(e) in Map(QueryOf, r) then r else r + [e];
      if e.query !in seen {
        MapConcat(QueryOf, r, [e]);
        assert Map(QueryOf, [e]) == [e.query];
        seen := seen + {e.query};
        r := r + [e];
      }
      i := i + 1;
    }
    assert entries[..|entries|] == entries;
  }

  function EntryOf(x: RecentSearch): SearchEntry
  {
    x.entry
  }

  /** The recalled form of each entry. The source reads `data.category || 'all'` here; the
      entries carry the category `Save` stored, which is never empty (`CategoryOrAll`), so the
      default is not applied again. */
  function MarkAll(entries: seq<SearchEntry>, personal: bool): (r: seq<RecentSearch>)
    ensures |r| == |entries|
    ensures forall i :: 0 <= i < |r| ==> r[i] == RecentSearch(entries[i], personal)
  {
    seq(|entries|, i requires 0 <= i < |entries| => RecentSearch(entries[i], personal))
  }

  function TrendingEntries(ts: seq<TrendingEntry>): seq<SearchEntry>
  {
    Map((t: TrendingEntry) => t.entry, ts)
  }

  /** What recall returns, given the user's history and the trending list, newest first: the
      first `limit` personal entries, de-duplicated, when there are any; otherwise the first
      `2 * limit` trending entries, de-duplicated and cut to `limit`. A limit that is not
      positive makes every query throw, and recall then returns nothing. */
  function Recall(history: seq<SearchEntry>, trending: seq<TrendingEntry>, signedIn: bool, limit: int): seq<RecentSearch>
  {
    if limit <= 0 then []
    else if signedIn && Take(history, limit) != [] then MarkAll(Dedupe(Take(history, limit)), true)
    else MarkAll(Take(Dedupe(Take(TrendingEntries(trending), 2 * limit)), limit), false)
  }

  class SearchHistory {
    /** Each user's `searchHistory` subcollection, newest first. */
    var personal: map<string, seq<SearchEntry>>
    /** The `trending_searches` collection, newest first. */
    var trending: seq<TrendingEntry>

    constructor ()
      ensures personal == map[] && trending == []
    {
      personal, trending := map[], [];
    }

    function HistoryOf(userId: string): seq<SearchEntry>
      reads this
    {
      if userId in personal then personal[userId] else []
    }

    /** `saveSearchQuery(userId, searchQuery, category)`: nothing for a blank query; otherwise
        the normalised entry goes to the user's history when there is a user, and always to
        the trending list, marked anonymized when there is no user. A user id that cannot name
        a document makes the first write throw; the error is swallowed and nothing is
        written. The server timestamp `now` is newer than every saved one, so the new entry
        comes first. */
    method Save(userId: string, searchQuery: string, category: Option<string>,
                personalId: string, trendingId: string, now: int)
      returns (failed: bool)
      modifies this
      ensures NormalizeQuery(searchQuery).None? || (userId != "" && !ValidUserId(userId)) ==>
        personal == old(personal) && trending == old(trending)
      ensures failed <==> NormalizeQuery(searchQuery).Some? && userId != "" && !ValidUserId(userId)
      ensures NormalizeQuery(searchQuery).Some? && (userId == "" || ValidUserId(userId)) ==>
        var e := SearchEntry(personalId, NormalizeQuery(searchQuery).value, CategoryOrAll(category), now);
        && personal == (if userId != "" then old(personal)[userId := [e] + old(HistoryOf(userId))]
                        else old(personal))
        && trending == [TrendingEntry(e.(id := trendingId), userId == "")] + old(trending)
    {
      failed := false;
      var q := NormalizeQuery(searchQuery);
      if q.None? {
        return;
      }
      if userId != "" && !ValidUserId(userId) {
        return true;
      }
      var e := SearchEntry(personalId, q.value, CategoryOrAll(category), now);
      if userId != "" {
        personal := personal[userId := [e] + HistoryOf(userId)];
      }
      trending := [TrendingEntry(e.(id := trendingId), userId == "")] + trending;
    }

    /** `getRecentSearches(userId, limit)` as its code intends it. */
    method RecentSearches(userId: string, limit: int) returns (r: seq<RecentSearch>)
      ensures r == Recall(HistoryOf(userId), trending, userId != "", limit)
    {
      if limit <= 0 {
        return [];
      }
      if userId != "" {
        var recent := Take(HistoryOf(userId), limit);
        if recent != [] {
          var unique := DedupeByQuery(recent);
          return MarkAll(unique, true);
        }
      }
      var recent := Take(TrendingEntries(trending), 2 * limit);
      var unique := DedupeByQuery(recent);
      r := MarkAll(Take(unique, limit), false);
    }
  }

  /** A user id that `doc(db, 'users', userId)` accepts. */
  predicate ValidUserId(userId: string)
  {
    userId != [] && '/' !in userId
  }

  /** `getRecentSearches` as written: its parameter `limit` shadows Firestore's `limit`, so
      `limit(limit)` calls a number, throws, and both the personal and the trending branch end
      in a catch; the outer one returns `[]`. */
  function RecentSearchesAsWritten(history: seq<SearchEntry>, trending: seq<TrendingEntry>, signedIn: bool, limit: int): seq<RecentSearch>
  {
    []
  }

  // ---------------------------------------------------------------------------------------
  // Lemmas

  /** Normalising a normalised query changes nothing, and a query is skipped exactly when it is
      blank. */
  lemma NormalizeQueryIdempotent(q: string)
    ensures NormalizeQuery(q).None? <==> forall i :: 0 <= i < |q| ==> Text.IsWhitespace(q[i])
    ensures NormalizeQuery(q).Some? ==> NormalizeQuery(NormalizeQuery(q).value) == NormalizeQuery(q)
  {
    Text.TrimBlank(q);
    var t := Text.Trim(q);
    if t != [] {
      var n := Text.Lower(t);
      assert NormalizeQuery(q) == Some(n);
      Text.LowerCommutesWithTrim(t);
      Text.TrimIdempotent(q);
      assert Text.Trim(n) == n;
      assert |n| == |t|;
      Text.LowerIdempotent(t);
      assert NormalizeQuery(n) == Some(Text.Lower(n));
    }
  }

  /** What recall returns: no query twice, at most `limit` entries, entries of the history (or
      of the trending list when the history is empty or there is no user); their order is
      stated by `RecallOrder`. */
  lemma RecallSpec(history: seq<SearchEntry>, trending: seq<TrendingEntry>, signedIn: bool, limit: int)
    ensures var r := Recall(history, trending, signedIn, limit);
      var source := if signedIn && limit > 0 && Take(history, limit) != [] then history else TrendingEntries(trending);
      && |r| <= (if limit > 0 then limit else 0)
      && (forall i, j :: 0 <= i < j < |r| ==> r[i].entry.query != r[j].entry.query)
      && (forall i :: 0 <= i < |r| ==> r[i].entry in source && r[i].personal == (source == history && signedIn && limit > 0 && Take(history, limit) != []))
  {
    if limit > 0 {
      if signedIn && Take(history, limit) != [] {
        var t := Take(history, limit);
        FirstByKeySpec(QueryOf, t);
        forall x | x in Dedupe(t) ensures x in history {
          FindFirstFindsKey(QueryOf, t, x.query);
        }
      } else {
        var t := Take(TrendingEntries(trending), 2 * limit);
        FirstByKeySpec(QueryOf, t);
        forall x | x in Dedupe(t) ensures x in TrendingEntries(trending) {
          FindFirstFindsKey(QueryOf, t, x.query);
        }
        var d := Dedupe(t);
        forall i, j | 0 <= i < j < |Take(d, limit)|
          ensures Take(d, limit)[i].query != Take(d, limit)[j].query
        {
          assert Take(d, limit)[i] == d[i] && Take(d, limit)[j] == d[j];
        }
      }
    }
  }

  /** The entries read for recall: the first `limit` personal entries when there are any,
      otherwise the first `2 * limit` trending entries. */
  function Taken(history: seq<SearchEntry>, trending: seq<TrendingEntry>, signedIn: bool, limit: int): seq<SearchEntry>
  {
    if limit <= 0 then []
    else if signedIn && Take(history, limit) != [] then Take(history, limit)
    else Take(TrendingEntries(trending), 2 * limit)
  }

  /** Recall keeps the newest-first order of what it reads, and in both branches each recalled
      entry is the newest entry of its query among the entries read. */
  lemma RecallOrder(history: seq<SearchEntry>, trending: seq<TrendingEntry>, signedIn: bool, limit: int)
    ensures var r := Recall(history, trending, signedIn, limit);
      var taken := Taken(history, trending, signedIn, limit);
      var source := if signedIn && limit > 0 && Take(history, limit) != [] then history else TrendingEntries(trending);
      && IsSubsequence(Map(EntryOf, r), taken)
      && IsSubsequence(Map(EntryOf, r), source)
      && (forall i :: 0 <= i < |r| ==> FindFirst(QueryOf, taken, r[i].entry.query) == Some(r[i].entry))
  {
    var r := Recall(history, trending, signedIn, limit);
    var taken := Taken(history, trending, signedIn, limit);
    if limit <= 0 {
      assert Map(EntryOf, r) == [];
    } else {
      var personal := signedIn && Take(history, limit) != [];
      var source := if personal then history else TrendingEntries(trending);
      var n := if personal then limit else 2 * limit;
      assert taken == Take(source, n);
      var d := Dedupe(taken);
      FirstByKeySpec(QueryOf, taken);
      var kept := if personal then d else Take(d, limit);
      assert r == MarkAll(kept, personal);
      EntriesOfMarkAll(kept, personal);
      if !personal {
        TakeIsSubsequence(d, limit);
        SubsequenceTrans(kept, d, taken);
        forall i | 0 <= i < |kept| ensures kept[i] in d {
          assert kept[i] == d[i];
        }
      }
      TakeIsSubsequence(source, n);
      SubsequenceTrans(kept, taken, source);
    }
  }

  /** Marking entries keeps the entries themselves, in order. */
  lemma EntriesOfMarkAll(entries: seq<SearchEntry>, personal: bool)
    ensures Map(EntryOf, MarkAll(entries, personal)) == entries
  {
    var m := Map(EntryOf, MarkAll(entries, personal));
    assert |m| == |entries|;
    forall i | 0 <= i < |entries| ensures m[i] == entries[i] {
      assert MarkAll(entries, personal)[i] == RecentSearch(entries[i], personal);
    }
  }

  /** The newest entry of each query survives: every query among the first `limit` personal
      entries is recalled, with its newest entry. */
  lemma RecallKeepsNewest(history: seq<SearchEntry>, trending: seq<TrendingEntry>, limit: int)
    requires limit > 0 && history != []
    ensures var r := Recall(history, trending, true, limit);
      forall i :: 0 <= i < |Take(history, limit)| ==>
        exists j ::
          (0 <= j < |r| && r[j].personal &&
           FindFirst(QueryOf, Take(history, limit), history[i].query) == Some(r[j].entry))
  {
    var t := Take(history, limit);
    assert t != [];
    var d := Dedupe(t);
    var r := Recall(history, trending, true, limit);
    assert r == MarkAll(d, true);
    FirstByKeySpec(QueryOf, t);
    forall i | 0 <= i < |t|
      ensures exists j ::
        (0 <= j < |r| && r[j].personal && FindFirst(QueryOf, t, history[i].query) == Some(r[j].entry))
    {
      assert t[i] == history[i];
      assert QueryOf(t[i]) in Map(QueryOf, d);
      var j :| 0 <= j < |d| && Map(QueryOf, d)[j] == QueryOf(t[i]);
      assert d[j] in d;
      assert r[j].entry == d[j];
    }
  }

  /** Saving a query and recalling it with a positive limit gives it back first, normalised. */
  lemma SaveThenRecall(history: seq<SearchEntry>, trending: seq<TrendingEntry>, e: SearchEntry, limit: int)
    requires limit > 0
    ensures var r := Recall([e] + history, trending, true, limit);
      r != [] && r[0] == RecentSearch(e, true)
  {
    var t := Take([e] + history, limit);
    assert t[0] == e;
    FirstByKeyHead(QueryOf, t);
  }

  lemma {:induction false} FirstByKeyHead<T, K>(key: T -> K, s: seq<T>)
    requires s != []
    ensures FirstByKey(key, s) != [] && FirstByKey(key, s)[0] == s[0]
    decreases |s|
  {
    if |s| > 1 {
      var p := s[..|s| - 1];
      FirstByKeyHead(key, p);
      assert p[0] == s[0];
    }
  }

  /** The search "Lawn" saved by user "u": recall as intended returns it, recall as written
      returns nothing. */
  lemma RecentSearchesAsWrittenLosesHistory()
    ensures var e := SearchEntry("h1", "lawn", "all", 1);
      && Recall([e], [TrendingEntry(e.(id := "t1"), false)], true, 8) == [RecentSearch(e, true)]
      && RecentSearchesAsWritten([e], [TrendingEntry(e.(id := "t1"), false)], true, 8) == []
  {
    var e := SearchEntry("h1", "lawn", "all", 1);
    assert Take([e], 8) == [e];
    FirstByKeyHead(QueryOf, [e]);
    FirstByKeySpec(QueryOf, [e]);
  }

  /** " Lawn " is stored as "lawn"; a query of spaces and tabs is skipped. */
  lemma NormalizeQueryExample()
    ensures NormalizeQuery(" Lawn ") == Some("lawn")
    ensures NormalizeQuery(" \t ") == None
  {
    TrimLawn();
    LowerLawn();
    TrimBlankExample();
  }

  lemma TrimLawn()
    ensures Text.Trim(" Lawn ") == "Lawn"
  {
    assert Text.TrimStart(" Lawn ") == "Lawn " by {
      Text.TrimStartFrom(" Lawn ", 1);
    }
    assert Text.TrimEnd("Lawn ") == "Lawn" by {
      Text.TrimEndTo("Lawn ", 4);
    }
  }

  lemma LowerLawn()
    ensures Text.Lower("Lawn") == "lawn"
  {
    var l := Text.Lower("Lawn");
    assert Text.LowerChar('L') == 'l';
    assert l[0] == 'l' && l[1] == 'a' && l[2] == 'w' && l[3] == 'n';
  }

  lemma TrimBlankExample()
    ensures Text.Trim(" \t ") == []
  {
    var s := " \t ";
    assert Text.IsWhitespace(s[0]) && Text.IsWhitespace(s[1]) && Text.IsWhitespace(s[2]);
    Text.TrimBlank(s);
  }
}
