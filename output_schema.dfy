/**
 * The `SongSearchResult` record and the check pydantic performs when one
 * is built: every field must already hold a value of its declared type.
 */
module OutputSchema {
  import opened PyValues

  datatype SongSearchResult = SongSearchResult(
    name: string,
    artistName: string,
    url: string,
    thumbnail: string,
    duration: int)

  /** The names of the fields, in declaration order, whose values have the wrong type. */
  function RejectedFields(name: Value, artistName: Value, url: Value, thumbnail: Value, duration: Value): seq<string> {
    (if name.Str? then [] else ["name"]) +
    (if artistName.Str? then [] else ["artist_name"]) +
    (if url.Str? then [] else ["url"]) +
    (if thumbnail.Str? then [] else ["thumbnail"]) +
    (if duration.Int? then [] else ["duration"])
  }

  /**
   * `SongSearchResult(name=..., ...)`: the record when every field is of
   * its type, otherwise a ValidationError naming the offending fields.
   */
  function NewSongSearchResult(name: Value, artistName: Value, url: Value, thumbnail: Value, duration: Value)
    : (r: Result<SongSearchResult>)
    ensures r.Ok? <==> name.Str? && artistName.Str? && url.Str? && thumbnail.Str? && duration.Int?
    ensures r.Ok? ==> r.value == SongSearchResult(name.s, artistName.s, url.s, thumbnail.s, duration.i)
    ensures r.Err? ==> r.error.ValidationError? && r.error.fields != []
    ensures r.Err? ==> ("thumbnail" in r.error.fields <==> !thumbnail.Str?)
    ensures r.Err? ==> ("duration" in r.error.fields <==> !duration.Int?)
  {
    var bad := RejectedFields(name, artistName, url, thumbnail, duration);
    if bad == [] then Ok(SongSearchResult(name.s, artistName.s, url.s, thumbnail.s, duration.i))
    else Err(ValidationError(bad))
  }
}
