/**
 * Batch search (`src/batch_search.py`): one yt-dlp search per query, the
 * entries of all searches gathered in query order, then turned into
 * `SongSearchResult` records. yt-dlp's `extract_info` is an abstract
 * extractor: it returns an info dictionary, None, or raises.
 */
module BatchSearch {
  import opened PyValues
  import opened OutputSchema
  import opened EntryLists
  import SearchResult

  const SearchPrefix: string := "ytsearch1:"

  /** `f"ytsearch1:{query}"`: ask yt-dlp for the first search hit only. */
  function SearchQuery(query: string): (q: string)
    ensures |q| == |SearchPrefix| + |query|
    ensures q[..|SearchPrefix|] == SearchPrefix && q[|SearchPrefix|..] == query
  {
    SearchPrefix + query
  }

  /** `ydl.extract_info(search_query, download=False)`: an info dictionary, None, or an exception. */
  type Extractor = string -> Result<Option<Bindings>>

  /**
   * What one search adds to `all_entries`: the elements of its `entries`
   * when the result is truthy and has that key, nothing otherwise.
   */
  function EntriesOf(result: Option<Bindings>): (r: Result<seq<Value>>)
    ensures result.None? || result.value == [] || !HasKey(result.value, "entries") ==> r == Ok([])
    ensures result.Some? && Lookup(result.value, "entries") == Some(NoneValue) ==> r == Err(TypeError)
    ensures forall items :: result.Some? && Lookup(result.value, "entries") == Some(List(items)) ==> r == Ok(items)
  {
    match result
    case None => Ok([])
    case Some(info) =>
      if info != [] && HasKey(info, "entries") then Iterate(Get(info, "entries", List([]))) else Ok([])
  }

  /** The search for one query and the entries it contributes. */
  function QueryEntries(extract: Extractor, query: string): (r: Result<seq<Value>>)
    ensures extract(SearchQuery(query)).Err? ==> r == Err(extract(SearchQuery(query)).error)
    ensures extract(SearchQuery(query)) == Ok(None) ==> r == Ok([])
    ensures forall info, items :: extract(SearchQuery(query)) == Ok(Some(info)) && Lookup(info, "entries") == Some(List(items)) ==> r == Ok(items)
    ensures r.Err? ==> extract(SearchQuery(query)).Err? || r.error == TypeError
  {
    match extract(SearchQuery(query))
    case Err(e) => Err(e)
    case Ok(result) => EntriesOf(result)
  }

  /** The entries of all queries, in query order; the first exception ends the search. */
  function FetchAll(extract: Extractor, queries: seq<string>): (r: Result<seq<Value>>)
    ensures r.Ok? <==> forall q :: q in queries ==> QueryEntries(extract, q).Ok?
    ensures r.Err? ==> exists q :: q in queries && QueryEntries(extract, q) == Err(r.error)
  {
    if queries == [] then Ok([])
    else match QueryEntries(extract, queries[0])
      case Err(e) => Err(e)
      case Ok(es) => Extend(es, FetchAll(extract, queries[1..]))
  }

  /** `fetch_youtube_data(queries)`: the loop that extends `all_entries` query by query. */
  method FetchYoutubeData(queries: seq<string>, extract: Extractor) returns (r: Result<seq<Value>>)
    ensures r == FetchAll(extract, queries)
  {
    var allEntries: seq<Value> := [];
    ExtendNothing(FetchAll(extract, queries));
    assert queries[0..] == queries;
    for i := 0 to |queries|
      invariant FetchAll(extract, queries) == Extend(allEntries, FetchAll(extract, queries[i..]))
    {
      assert queries[i..][1..] == queries[i + 1..];
      var searchQuery := SearchQuery(queries[i]);
      match extract(searchQuery)
      case Err(e) =>
        return Err(e);
      case Ok(result) =>
        match EntriesOf(result)
        case Err(e) =>
          return Err(e);
        case Ok(es) =>
          ExtendAssoc(allEntries, es, FetchAll(extract, queries[i + 1..]));
          allEntries := allEntries + es;
    }
    assert queries[|queries|..] == [];
    assert allEntries + [] == allEntries;
    r := Ok(allEntries);
  }

  /**
   * Searching two lists of queries one after the other gathers the
   * entries of the first list followed by those of the second.
   */
  lemma {:induction false} FetchAllAppend(extract: Extractor, a: seq<string>, b: seq<string>)
    ensures FetchAll(extract, a + b) ==
      Then(FetchAll(extract, a), FetchAll(extract, b))
  {
    if a == [] {
      assert a + b == b;
      ExtendNothing(FetchAll(extract, b));
    } else {
      assert (a + b)[0] == a[0];
      assert (a + b)[1..] == a[1..] + b;
      FetchAllAppend(extract, a[1..], b);
      match QueryEntries(extract, a[0])
      case Err(_) =>
      case Ok(es) =>
        match FetchAll(extract, a[1..])
        case Err(_) =>
        case Ok(ys) => ExtendAssoc(es, ys, FetchAll(extract, b));
    }
  }

  /** A single query contributes exactly what its own search yields. */
  lemma FetchAllSingle(extract: Extractor, query: string)
    ensures FetchAll(extract, [query]) == QueryEntries(extract, query)
  {
    assert [query][1..] == [];
    match QueryEntries(extract, query)
    case Err(_) =>
    case Ok(es) => assert es + [] == es;
  }

  /** `int(duration_val) if duration_val is not None else None` */
  function DurationOf(e: Bindings): (r: Result<Value>)
    ensures !HasKey(e, "duration") || Lookup(e, "duration") == Some(NoneValue) ==> r == Ok(NoneValue)
    ensures forall v :: Lookup(e, "duration") == Some(v) && v != NoneValue && IntOf(v).Ok? ==> r == Ok(Int(IntOf(v).value))
    ensures forall v :: Lookup(e, "duration") == Some(v) && v != NoneValue && IntOf(v).Err? ==> r == Err(IntOf(v).error)
    ensures r.Ok? ==> (r.value == NoneValue <==> Get(e, "duration", NoneValue) == NoneValue)
    ensures r.Ok? && r.value != NoneValue ==> r.value.Int? && IntOf(Get(e, "duration", NoneValue)) == Ok(r.value.i)
  {
    var v := Get(e, "duration", NoneValue);
    if v == NoneValue then Ok(NoneValue)
    else match IntOf(v)
      case Err(err) => Err(err)
      case Ok(d) => Ok(Int(d))
  }

  /** `entry['thumbnails'][-1]['url']` when `thumbnails` is truthy, else None. */
  function ThumbnailOf(e: Bindings): (r: Result<Value>)
    ensures !Truthy(Get(e, "thumbnails", NoneValue)) ==> r == Ok(NoneValue)
    ensures forall items :: Lookup(e, "thumbnails") == Some(List(items)) && items != [] ==>
      r == Subscript(items[|items| - 1], "url")
  {
    var thumbs := Get(e, "thumbnails", NoneValue);
    if Truthy(thumbs) then
      match LastItem(thumbs)
      case Err(err) => Err(err)
      case Ok(last) => Subscript(last, "url")
    else Ok(NoneValue)
  }

  /** The record built from one truthy entry (the body of the loop). */
  function ParseEntry(entry: Value): (r: Result<SongSearchResult>)
    ensures !entry.Dict? ==> r == Err(AttributeError)
    ensures entry.Dict? ==>
      (r.Ok? <==> && SearchResult.StrOrAbsent(entry.fields, "title")
                  && SearchResult.StrOrAbsent(entry.fields, "uploader")
                  && DurationOf(entry.fields).Ok? && DurationOf(entry.fields).value.Int?
                  && ThumbnailOf(entry.fields).Ok? && ThumbnailOf(entry.fields).value.Str?)
    ensures entry.Dict? && Get(entry.fields, "duration", NoneValue) == NoneValue ==> r.Err?
    ensures entry.Dict? && !Truthy(Get(entry.fields, "thumbnails", NoneValue)) ==> r.Err?
    // `int(...)` runs first, then the thumbnail lookup, then the record's validation
    ensures entry.Dict? && DurationOf(entry.fields).Err? ==> r == Err(DurationOf(entry.fields).error)
    ensures entry.Dict? && DurationOf(entry.fields).Ok? && ThumbnailOf(entry.fields).Err? ==>
      r == Err(ThumbnailOf(entry.fields).error)
    ensures entry.Dict? && DurationOf(entry.fields).Ok? && ThumbnailOf(entry.fields).Ok? && r.Err? ==>
      && r.error.ValidationError?
      && ("duration" in r.error.fields <==> !DurationOf(entry.fields).value.Int?)
      && ("thumbnail" in r.error.fields <==> !ThumbnailOf(entry.fields).value.Str?)
    ensures r.Ok? ==>
      var e := entry.fields;
      && r.value.name == (if HasKey(e, "title") then Lookup(e, "title").value.s else "N/A")
      && r.value.artistName == (if HasKey(e, "uploader") then Lookup(e, "uploader").value.s else "N/A")
      && r.value.url == SearchResult.WatchUrl(e)
      && HasKey(e, "duration") && IntOf(Lookup(e, "duration").value) == Ok(r.value.duration)
      && Truthy(Lookup(e, "thumbnails").value)
      && ThumbnailOf(e) == Ok(Str(r.value.thumbnail))
  {
    match entry
    case Dict(e) =>
      (match DurationOf(e)
       case Err(err) => Err(err)
       case Ok(duration) =>
         match ThumbnailOf(e)
         case Err(err) => Err(err)
         case Ok(thumbnail) =>
           NewSongSearchResult(Get(e, "title", Str("N/A")), Get(e, "uploader", Str("N/A")),
                               Str(SearchResult.WatchUrl(e)), thumbnail, duration))
      // `entry.get` on a truthy value that is not a dictionary
    case _ => Err(AttributeError)
  }

  /** `parse_search_results(entries)`: the loop that skips falsy entries and appends a record for the others. */
  method ParseSearchResults(entries: seq<Value>) returns (r: Result<seq<SongSearchResult>>)
    ensures r == ParseEach(ParseEntry, entries)
  {
    var parsedList: seq<SongSearchResult> := [];
    ExtendNothing(ParseEach(ParseEntry, entries));
    assert entries[0..] == entries;
    for i := 0 to |entries|
      invariant ParseEach(ParseEntry, entries) == Extend(parsedList, ParseEach(ParseEntry, entries[i..]))
    {
      ParseEachStep(ParseEntry, entries, i);
      var entry := entries[i];
      if !Truthy(entry) {
        continue;
      }
      match ParseEntry(entry)
      case Err(e) =>
        return Err(e);
      case Ok(song) =>
        ExtendAssoc(parsedList, [song], ParseEach(ParseEntry, entries[i + 1..]));
        parsedList := parsedList + [song];
    }
    assert entries[|entries|..] == [];
    assert parsedList + [] == parsedList;
    r := Ok(parsedList);
  }

  /** `parse_search_results(fetch_youtube_data(queries))`, as a value. */
  function SearchAll(extract: Extractor, queries: seq<string>): (r: Result<seq<SongSearchResult>>)
    // the fetch runs to the end before any parsing: its exception wins
    ensures FetchAll(extract, queries).Err? ==> r == Err(FetchAll(extract, queries).error)
    ensures r.Ok? ==> FetchAll(extract, queries).Ok? && |r.value| == |Kept(FetchAll(extract, queries).value)|
  {
    match FetchAll(extract, queries)
    case Err(e) => Err(e)
    case Ok(entries) => ParseEach(ParseEntry, entries)
  }

  /** `search_multiple_songs(queries)`: fetch every query, then parse the combined entries. */
  method SearchMultipleSongs(queries: seq<string>, extract: Extractor) returns (r: Result<seq<SongSearchResult>>)
    ensures r == SearchAll(extract, queries)
  {
    var rawEntries := FetchYoutubeData(queries, extract);
    match rawEntries
    case Err(e) =>
      r := Err(e);
    case Ok(entries) =>
      r := ParseSearchResults(entries);
  }

  /**
   * Every search runs before any entry is parsed: once both halves of the
   * query list fetch, the records of `a + b` are those of `a` followed by
   * those of `b`; a failed fetch in `b` wins over a parse failure in `a`.
   */
  lemma SearchAllAppend(extract: Extractor, a: seq<string>, b: seq<string>)
    ensures FetchAll(extract, a).Ok? && FetchAll(extract, b).Ok? ==>
      SearchAll(extract, a + b) ==
        Then(SearchAll(extract, a), SearchAll(extract, b))
    ensures FetchAll(extract, a).Ok? && FetchAll(extract, b).Err? ==>
      SearchAll(extract, a + b) == Err(FetchAll(extract, b).error)
  {
    FetchAllAppend(extract, a, b);
    if FetchAll(extract, a).Ok? && FetchAll(extract, b).Ok? {
      ParseEachAppend(ParseEntry, FetchAll(extract, a).value, FetchAll(extract, b).value);
    }
  }

  /**
   * On success, one record per truthy entry of the combined search results,
   * in order; an entry without `duration` or without `thumbnails` (both
   * become None, which the record's `int` and `str` fields reject) fails
   * the whole call.
   */
  lemma SearchAllRecords(extract: Extractor, queries: seq<string>)
    ensures SearchAll(extract, queries).Ok? ==>
      var es := FetchAll(extract, queries).value;
      var rs := SearchAll(extract, queries).value;
      |rs| == |Kept(es)| && forall k :: 0 <= k < |rs| ==> ParseEntry(Kept(es)[k]) == Ok(rs[k])
    ensures SearchAll(extract, queries).Ok? ==>
      forall x :: x in FetchAll(extract, queries).value && Truthy(x) ==>
        x.Dict? && HasKey(x.fields, "duration") && Truthy(Get(x.fields, "thumbnails", NoneValue))
  {
    if SearchAll(extract, queries).Ok? {
      var es := FetchAll(extract, queries).value;
      ParseEachValues(ParseEntry, es);
      assert ParseEach(ParseEntry, es).Ok?;
      forall x | x in es && Truthy(x)
        ensures x.Dict? && HasKey(x.fields, "duration") && Truthy(Get(x.fields, "thumbnails", NoneValue))
      {
        assert ParseEntry(x).Ok?;
      }
    }
  }
}
