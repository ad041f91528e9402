/**
 * Choosing the audio stream of a video from yt-dlp's info dictionary
 * (`parse_stream_url`): a top-level `url` wins; otherwise the `url` of the
 * first format that carries audio and no video; otherwise None.
 */
module StreamData {
  import opened PyValues

  /** `f.get('acodec') != 'none' and f.get('vcodec') == 'none'` */
  predicate IsAudioOnly(f: Bindings): (b: bool)
    ensures b <==> Lookup(f, "acodec") != Some(Str("none")) && Lookup(f, "vcodec") == Some(Str("none"))
  {
    Get(f, "acodec", NoneValue) != Str("none") && Get(f, "vcodec", NoneValue) == Str("none")
  }

  /** Every format of `fs` is a dictionary that is not audio-only: the loop passes all of them. */
  predicate AllSkipped(fs: seq<Value>) {
    forall j :: 0 <= j < |fs| ==> fs[j].Dict? && !IsAudioOnly(fs[j].fields)
  }

  /** The `for f in formats` loop: the `url` of the first audio-only format, else None. */
  function FirstAudioOnly(fs: seq<Value>): (r: Result<Value>)
    ensures r.Err? ==> r.error == AttributeError
  {
    if fs == [] then Ok(NoneValue)
    else match fs[0]
      case Dict(f) => if IsAudioOnly(f) then Ok(Get(f, "url", NoneValue)) else FirstAudioOnly(fs[1..])
        // `f.get` on anything but a dictionary
      case _ => Err(AttributeError)
  }

  /** `parse_stream_url(info)`; the result is the Python value returned, `NoneValue` for None. */
  function ParseStreamUrl(info: Bindings): (r: Result<Value>)
    ensures HasKey(info, "url") ==> r == Ok(Get(info, "url", NoneValue))
    ensures !HasKey(info, "url") && !HasKey(info, "formats") ==> r == Ok(NoneValue)
    ensures forall fs :: !HasKey(info, "url") && Lookup(info, "formats") == Some(List(fs)) ==> r == FirstAudioOnly(fs)
    ensures !HasKey(info, "url") && Lookup(info, "formats") == Some(NoneValue) ==> r == Err(TypeError)
  {
    match Lookup(info, "url")
    case Some(u) => Ok(u)
    case None =>
      match Iterate(Get(info, "formats", List([])))
      case Err(e) => Err(e)
      case Ok(fs) => FirstAudioOnly(fs)
  }

  /** Format `k` is the first audio-only one, and every earlier format is a dictionary. */
  predicate MatchAt(fs: seq<Value>, k: int) {
    0 <= k < |fs| && AllSkipped(fs[..k]) && fs[k].Dict? && IsAudioOnly(fs[k].fields)
  }

  /** Format `k` is the first one that is not a dictionary, and no earlier format matched. */
  predicate BreaksAt(fs: seq<Value>, k: int) {
    0 <= k < |fs| && AllSkipped(fs[..k]) && !fs[k].Dict?
  }

  lemma SkippedTail(fs: seq<Value>, k: int)
    requires 0 < k <= |fs| && AllSkipped(fs[..k])
    ensures fs[0].Dict? && !IsAudioOnly(fs[0].fields) && AllSkipped(fs[1..][..k - 1])
  {
    assert fs[..k][0] == fs[0];
    assert fs[1..][..k - 1] == fs[..k][1..];
  }

  lemma SkippedCons(fs: seq<Value>, k: int)
    requires 0 < k <= |fs| && fs[0].Dict? && !IsAudioOnly(fs[0].fields) && AllSkipped(fs[1..][..k - 1])
    ensures AllSkipped(fs[..k])
  {
    var tail := fs[1..][..k - 1];
    forall j | 0 <= j < k
      ensures fs[..k][j].Dict? && !IsAudioOnly(fs[..k][j].fields)
    {
      if j > 0 {
        assert fs[..k][j] == tail[j - 1];
      }
    }
  }

  /** A match at `k` is what the loop returns: later matches are never looked at. */
  lemma {:induction false} FirstMatchWins(fs: seq<Value>, k: int)
    requires MatchAt(fs, k)
    ensures FirstAudioOnly(fs) == Ok(Get(fs[k].fields, "url", NoneValue))
  {
    if k > 0 {
      SkippedTail(fs, k);
      assert fs[1..][k - 1] == fs[k];
      FirstMatchWins(fs[1..], k - 1);
    }
  }

  /** When every format is passed over, the loop falls through to None. */
  lemma {:induction false} AllSkippedGivesNone(fs: seq<Value>)
    requires AllSkipped(fs)
    ensures FirstAudioOnly(fs) == Ok(NoneValue)
  {
    if fs != [] {
      assert fs[0].Dict?;
      AllSkippedGivesNone(fs[1..]);
    }
  }

  /** A first match in the tail, after a skipped head, is a first match of the whole list. */
  lemma MatchCons(fs: seq<Value>, k: int)
    requires fs != [] && fs[0].Dict? && !IsAudioOnly(fs[0].fields) && MatchAt(fs[1..], k)
    ensures MatchAt(fs, k + 1) && fs[k + 1] == fs[1..][k]
  {
    SkippedCons(fs, k + 1);
  }

  lemma SkippedAllCons(fs: seq<Value>)
    requires fs != [] && fs[0].Dict? && !IsAudioOnly(fs[0].fields) && AllSkipped(fs[1..])
    ensures AllSkipped(fs)
  {
    assert fs[1..][..|fs| - 1] == fs[1..];
    SkippedCons(fs, |fs|);
    assert fs[..|fs|] == fs;
  }

  /** The loop returns only through a first match or by falling through. */
  lemma {:induction false} FirstAudioOnlyOkCases(fs: seq<Value>)
    ensures FirstAudioOnly(fs).Ok? ==>
      || (exists k :: MatchAt(fs, k) && FirstAudioOnly(fs).value == Get(fs[k].fields, "url", NoneValue))
      || (AllSkipped(fs) && FirstAudioOnly(fs).value == NoneValue)
  {
    if fs != [] && FirstAudioOnly(fs).Ok? {
      assert fs[0].Dict?;
      if IsAudioOnly(fs[0].fields) {
        assert fs[..0] == [];
        assert MatchAt(fs, 0);
      } else {
        var v := FirstAudioOnly(fs).value;
        assert FirstAudioOnly(fs[1..]) == Ok(v);
        FirstAudioOnlyOkCases(fs[1..]);
        if exists k :: MatchAt(fs[1..], k) && v == Get(fs[1..][k].fields, "url", NoneValue) {
          var k :| MatchAt(fs[1..], k) && v == Get(fs[1..][k].fields, "url", NoneValue);
          MatchCons(fs, k);
        } else {
          SkippedAllCons(fs);
        }
      }
    }
  }

  /**
   * First match, both directions: the loop returns `v` exactly when some
   * format `k` is the first audio-only one and `v` is its `url` (None when
   * it has none), or when every format is passed over and `v` is None.
   */
  lemma FirstAudioOnlyIsFirstMatch(fs: seq<Value>, v: Value)
    ensures FirstAudioOnly(fs) == Ok(v) <==>
      || (exists k :: MatchAt(fs, k) && v == Get(fs[k].fields, "url", NoneValue))
      || (AllSkipped(fs) && v == NoneValue)
  {
    FirstAudioOnlyOkCases(fs);
    if exists k :: MatchAt(fs, k) && v == Get(fs[k].fields, "url", NoneValue) {
      var k :| MatchAt(fs, k) && v == Get(fs[k].fields, "url", NoneValue);
      FirstMatchWins(fs, k);
    }
    if AllSkipped(fs) {
      AllSkippedGivesNone(fs);
    }
  }

  /**
   * The loop fails exactly when it reaches a format that is not a
   * dictionary before it finds an audio-only one.
   */
  lemma {:induction false} FirstAudioOnlyFails(fs: seq<Value>)
    ensures FirstAudioOnly(fs).Err? <==> exists k :: BreaksAt(fs, k)
  {
    if fs != [] {
      if !fs[0].Dict? {
        assert fs[..0] == [];
        assert BreaksAt(fs, 0);
      } else if IsAudioOnly(fs[0].fields) {
        if exists k :: BreaksAt(fs, k) {
          var k :| BreaksAt(fs, k);
          assert k != 0;
          SkippedTail(fs, k);
        }
      } else {
        FirstAudioOnlyFails(fs[1..]);
        if exists k :: BreaksAt(fs[1..], k) {
          var k :| BreaksAt(fs[1..], k);
          SkippedCons(fs, k + 1);
          assert BreaksAt(fs, k + 1);
        }
        if exists k :: BreaksAt(fs, k) {
          var k :| BreaksAt(fs, k);
          assert k != 0;
          SkippedTail(fs, k);
          assert BreaksAt(fs[1..], k - 1);
        }
      }
    }
  }

  /**
   * No value is invented: a result other than None is the top-level `url`
   * or the `url` of a dictionary in the `formats` list.
   */
  lemma {:induction false} FirstAudioOnlyFromFormats(fs: seq<Value>)
    ensures FirstAudioOnly(fs).Ok? && FirstAudioOnly(fs).value != NoneValue ==>
      exists k :: 0 <= k < |fs| && fs[k].Dict? && Lookup(fs[k].fields, "url") == Some(FirstAudioOnly(fs).value)
  {
    if fs != [] && fs[0].Dict? && !IsAudioOnly(fs[0].fields) {
      FirstAudioOnlyFromFormats(fs[1..]);
      if FirstAudioOnly(fs).Ok? && FirstAudioOnly(fs).value != NoneValue {
        var k :| 0 <= k < |fs[1..]| && fs[1..][k].Dict? && Lookup(fs[1..][k].fields, "url") == Some(FirstAudioOnly(fs).value);
        assert fs[k + 1] == fs[1..][k];
      }
    } else if fs != [] && fs[0].Dict? && FirstAudioOnly(fs).value != NoneValue {
      assert fs[0].Dict? && Lookup(fs[0].fields, "url") == Some(FirstAudioOnly(fs).value);
    }
  }

  lemma ParseStreamUrlNoInvention(info: Bindings)
    ensures ParseStreamUrl(info).Ok? && ParseStreamUrl(info).value != NoneValue ==>
      || Lookup(info, "url") == Some(ParseStreamUrl(info).value)
      || (exists fs: seq<Value> ::
            Lookup(info, "formats") == Some(List(fs)) &&
            exists k :: 0 <= k < |fs| && fs[k].Dict? && Lookup(fs[k].fields, "url") == Some(ParseStreamUrl(info).value))
  {
    var r := ParseStreamUrl(info);
    if !HasKey(info, "url") && r.Ok? && r.value != NoneValue {
      var formats := Get(info, "formats", List([]));
      var fs := Iterate(formats).value;
      FirstAudioOnlyFromFormats(fs);
      var k :| 0 <= k < |fs| && fs[k].Dict? && Lookup(fs[k].fields, "url") == Some(r.value);
      // strings and dictionaries iterate as strings, which are never dictionaries
      assert formats.List?;
    }
  }

  /**
   * A format without `acodec` counts as carrying audio; a format without
   * `vcodec` never matches.
   */
  lemma MissingCodecs(f: Bindings)
    ensures !HasKey(f, "acodec") ==> (IsAudioOnly(f) <==> Lookup(f, "vcodec") == Some(Str("none")))
    ensures !HasKey(f, "vcodec") ==> !IsAudioOnly(f)
  {
  }
}
