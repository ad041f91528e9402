/**
 * The shape both `parse_search_results` loops share: walk the raw entries
 * in order, skip the falsy ones, turn each other one into a record, and let
 * the first exception end the whole call.
 */
module EntryLists {
  import opened PyValues

  /** The truthy entries, in input order: the ones the loops do not skip. */
  function Kept(entries: seq<Value>): (r: seq<Value>)
    ensures |r| <= |entries|
  {
    if entries == [] then []
    else if Truthy(entries[0]) then [entries[0]] + Kept(entries[1..])
    else Kept(entries[1..])
  }

  /** `prefix + rest`, where `rest` may instead be an exception that discards the prefix. */
  function Extend<T>(prefix: seq<T>, rest: Result<seq<T>>): Result<seq<T>> {
    match rest
    case Err(e) => Err(e)
    case Ok(xs) => Ok(prefix + xs)
  }

  /** A first result followed by a second one: the first exception, or both lists joined. */
  function Then<T>(first: Result<seq<T>>, second: Result<seq<T>>): Result<seq<T>> {
    match first
    case Err(e) => Err(e)
    case Ok(xs) => Extend(xs, second)
  }

  lemma ExtendNothing<T>(rest: Result<seq<T>>)
    ensures Extend([], rest) == rest
  {
    match rest
    case Err(_) =>
    case Ok(xs) => assert [] + xs == xs;
  }

  lemma ExtendAssoc<T>(done: seq<T>, more: seq<T>, rest: Result<seq<T>>)
    ensures Extend(done, Extend(more, rest)) == Extend(done + more, rest)
  {
    match rest
    case Err(_) =>
    case Ok(xs) => assert done + (more + xs) == (done + more) + xs;
  }

  /** Parsing every kept entry with `parse`; the first failure is the result. */
  function ParseEach<T>(parse: Value -> Result<T>, entries: seq<Value>): (r: Result<seq<T>>)
    ensures r.Ok? <==> forall e :: e in entries && Truthy(e) ==> parse(e).Ok?
    ensures r.Ok? ==> |r.value| == |Kept(entries)|
  {
    if entries == [] then Ok([])
    else if !Truthy(entries[0]) then ParseEach(parse, entries[1..])
    else match parse(entries[0])
      case Err(e) => Err(e)
      case Ok(x) => Extend([x], ParseEach(parse, entries[1..]))
  }

  /** One step of the loop: the entry at `i` is skipped or parsed and appended. */
  lemma ParseEachStep<T>(parse: Value -> Result<T>, entries: seq<Value>, i: nat)
    requires i < |entries|
    ensures ParseEach(parse, entries[i..]) ==
      if !Truthy(entries[i]) then ParseEach(parse, entries[i + 1..])
      else match parse(entries[i])
        case Err(e) => Err(e)
        case Ok(x) => Extend([x], ParseEach(parse, entries[i + 1..]))
  {
    assert entries[i..][1..] == entries[i + 1..];
  }

  /** The kept entries are exactly the truthy ones. */
  lemma {:induction false} KeptMembers(entries: seq<Value>)
    ensures forall x :: x in Kept(entries) <==> x in entries && Truthy(x)
  {
    if entries != [] {
      KeptMembers(entries[1..]);
      assert entries == [entries[0]] + entries[1..];
    }
  }

  /** Dropping falsy entries keeps order and splits over concatenation. */
  lemma {:induction false} KeptAppend(a: seq<Value>, b: seq<Value>)
    ensures Kept(a + b) == Kept(a) + Kept(b)
  {
    if a != [] {
      KeptAppend(a[1..], b);
      assert (a + b)[0] == a[0];
      assert (a + b)[1..] == a[1..] + b;
    } else {
      assert a + b == b;
    }
  }

  /**
   * Parsing is a map over the kept entries: on success there is exactly
   * one record per truthy entry, in input order, each the entry's own.
   */
  lemma {:induction false} ParseEachValues<T>(parse: Value -> Result<T>, entries: seq<Value>)
    ensures ParseEach(parse, entries).Ok? ==>
      var rs := ParseEach(parse, entries).value;
      |rs| == |Kept(entries)| && forall k :: 0 <= k < |rs| ==> parse(Kept(entries)[k]) == Ok(rs[k])
  {
    if entries != [] {
      ParseEachValues(parse, entries[1..]);
    }
  }

  /**
   * A failure is the exception of the first truthy entry that does not
   * parse; every truthy entry before it parsed.
   */
  lemma {:induction false} ParseEachFailsFirst<T>(parse: Value -> Result<T>, entries: seq<Value>)
    ensures ParseEach(parse, entries).Err? ==>
      exists k :: 0 <= k < |Kept(entries)| && parse(Kept(entries)[k]) == Err(ParseEach(parse, entries).error)
        && forall j :: 0 <= j < k ==> parse(Kept(entries)[j]).Ok?
  {
    if entries != [] && ParseEach(parse, entries).Err? {
      ParseEachFailsFirst(parse, entries[1..]);
      var ks := Kept(entries);
      if Truthy(entries[0]) && parse(entries[0]).Ok? {
        var tail := Kept(entries[1..]);
        var k :| 0 <= k < |tail| && parse(tail[k]) == Err(ParseEach(parse, entries).error)
                 && forall j :: 0 <= j < k ==> parse(tail[j]).Ok?;
        assert ks[k + 1] == tail[k];
        assert forall j :: 0 < j <= k ==> ks[j] == tail[j - 1];
      } else if Truthy(entries[0]) {
        assert ks[0] == entries[0];
      }
    }
  }

  /** The call succeeds exactly when every truthy entry parses. */
  lemma ParseEachSucceeds<T>(parse: Value -> Result<T>, entries: seq<Value>)
    ensures ParseEach(parse, entries).Ok? <==> forall k :: 0 <= k < |Kept(entries)| ==> parse(Kept(entries)[k]).Ok?
  {
    ParseEachValues(parse, entries);
    ParseEachFailsFirst(parse, entries);
  }

  /** Parsing two runs of entries one after the other is parsing their concatenation. */
  lemma {:induction false} ParseEachAppend<T>(parse: Value -> Result<T>, a: seq<Value>, b: seq<Value>)
    ensures ParseEach(parse, a + b) ==
      Then(ParseEach(parse, a), ParseEach(parse, b))
  {
    if a == [] {
      assert a + b == b;
      match ParseEach(parse, b)
      case Err(_) =>
      case Ok(zs) => assert [] + zs == zs;
    } else {
      assert (a + b)[1..] == a[1..] + b;
      ParseEachAppend(parse, a[1..], b);
      match ParseEach(parse, a[1..])
      case Err(_) =>
      case Ok(ys) =>
        match ParseEach(parse, b)
        case Err(_) =>
        case Ok(zs) =>
          if Truthy(a[0]) && parse(a[0]).Ok? {
            assert [parse(a[0]).value] + (ys + zs) == ([parse(a[0]).value] + ys) + zs;
          }
    }
  }
}
