/**
 * Single-query search (`src/search_result.py`): turning yt-dlp's raw
 * entries into `SongSearchResult` records, with `'N/A'`, `''` and `0` as
 * the defaults for missing keys.
 */
module SearchResult {
  import opened PyValues
  import opened OutputSchema
  import opened EntryLists

  const WatchPrefix: string := "https://www.youtube.com/watch?v="

  /** `f"https://www.youtube.com/watch?v={entry.get('id')}"` */
  function WatchUrl(entry: Bindings): (url: string)
    ensures |url| >= |WatchPrefix| && url[..|WatchPrefix|] == WatchPrefix
    ensures Lookup(entry, "id") == None ==> url == WatchPrefix + "None"
    ensures forall id :: Lookup(entry, "id") == Some(Str(id)) ==> url == WatchPrefix + id
  {
    WatchPrefix + Format(Get(entry, "id", NoneValue))
  }

  /** A key that is absent or holds a string: what a `str` field accepts from `.get(key, default)`. */
  predicate StrOrAbsent(entry: Bindings, key: string) {
    Lookup(entry, key).None? || Lookup(entry, key).value.Str?
  }

  /** The record built from one truthy entry (the body of the loop). */
  function ParseEntry(entry: Value): (r: Result<SongSearchResult>)
    ensures !entry.Dict? ==> r == Err(AttributeError)
    ensures entry.Dict? ==>
      (r.Ok? <==> && StrOrAbsent(entry.fields, "title") && StrOrAbsent(entry.fields, "uploader")
                  && StrOrAbsent(entry.fields, "thumbnail")
                  && IntOf(Get(entry.fields, "duration", Int(0))).Ok?)
    ensures entry.Dict? && Lookup(entry.fields, "duration") == Some(NoneValue) ==> r == Err(TypeError)
    // `int(...)` raises before the record is validated
    ensures entry.Dict? && IntOf(Get(entry.fields, "duration", Int(0))).Err? ==>
      r == Err(IntOf(Get(entry.fields, "duration", Int(0))).error)
    ensures entry.Dict? && IntOf(Get(entry.fields, "duration", Int(0))).Ok? && r.Err? ==>
      && r.error.ValidationError?
      && ("thumbnail" in r.error.fields <==> !Get(entry.fields, "thumbnail", Str("")).Str?)
      && "duration" !in r.error.fields
    ensures r.Ok? ==>
      var e := entry.fields;
      && r.value.name == (if HasKey(e, "title") then Lookup(e, "title").value.s else "N/A")
      && r.value.artistName == (if HasKey(e, "uploader") then Lookup(e, "uploader").value.s else "N/A")
      && r.value.url == WatchUrl(e)
      && r.value.thumbnail == (if HasKey(e, "thumbnail") then Lookup(e, "thumbnail").value.s else "")
      && (!HasKey(e, "duration") ==> r.value.duration == 0)
      && (HasKey(e, "duration") ==> IntOf(Lookup(e, "duration").value) == Ok(r.value.duration))
  {
    match entry
    case Dict(e) =>
      var name := Get(e, "title", Str("N/A"));
      var artistName := Get(e, "uploader", Str("N/A"));
      var url := Str(WatchUrl(e));
      var thumbnail := Get(e, "thumbnail", Str(""));
      (match IntOf(Get(e, "duration", Int(0)))
       case Err(err) => Err(err)
       case Ok(d) => NewSongSearchResult(name, artistName, url, thumbnail, Int(d)))
      // `entry.get` on a truthy value that is not a dictionary
    case _ => Err(AttributeError)
  }

  /** `parse_search_results(entries)`: the loop that appends one record per truthy entry. */
  method ParseSearchResults(entries: seq<Value>) returns (r: Result<seq<SongSearchResult>>)
    ensures r == ParseEach(ParseEntry, entries)
  {
    var parsedList: seq<SongSearchResult> := [];
    var i := 0;
    ExtendNothing(ParseEach(ParseEntry, entries));
    assert entries[i..] == entries;
    while i < |entries|
      invariant 0 <= i <= |entries|
      invariant ParseEach(ParseEntry, entries) == Extend(parsedList, ParseEach(ParseEntry, entries[i..]))
    {
      ParseEachStep(ParseEntry, entries, i);
      var entry := entries[i];
      if Truthy(entry) {
        match ParseEntry(entry)
        case Err(e) =>
          return Err(e);
        case Ok(song) =>
          ExtendAssoc(parsedList, [song], ParseEach(ParseEntry, entries[i + 1..]));
          parsedList := parsedList + [song];
      }
      i := i + 1;
    }
    assert entries[i..] == [];
    assert parsedList + [] == parsedList;
    r := Ok(parsedList);
  }

  /**
   * On success, one record per truthy entry in input order, each with the
   * defaults of its own entry; a single truthy entry whose `duration` is
   * None makes the whole call fail.
   */
  lemma {:induction false} ParseSearchResultsSpec(entries: seq<Value>)
    ensures ParseEach(ParseEntry, entries).Ok? ==>
      var rs := ParseEach(ParseEntry, entries).value;
      |rs| == |Kept(entries)| && forall k :: 0 <= k < |rs| ==> ParseEntry(Kept(entries)[k]) == Ok(rs[k])
    ensures (exists k :: 0 <= k < |entries| && entries[k].Dict? && Truthy(entries[k])
                         && Lookup(entries[k].fields, "duration") == Some(NoneValue))
            ==> ParseEach(ParseEntry, entries).Err?
  {
    ParseEachValues(ParseEntry, entries);
    if exists k :: 0 <= k < |entries| && entries[k].Dict? && Truthy(entries[k])
                   && Lookup(entries[k].fields, "duration") == Some(NoneValue) {
      var k :| 0 <= k < |entries| && entries[k].Dict? && Truthy(entries[k])
               && Lookup(entries[k].fields, "duration") == Some(NoneValue);
      assert entries[k] in entries && ParseEntry(entries[k]).Err?;
    }
  }
}
