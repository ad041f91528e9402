/**
 * The fragment of Python's object model that the service's data shaping
 * relies on: the values yt-dlp hands back (None, booleans, integers,
 * strings, lists and dictionaries), truthiness, `dict.get`, iteration,
 * `int(...)` and `str(...)` (as used inside an f-string), and the
 * exceptions these raise.
 *
 * A dictionary is kept as its bindings in insertion order, which is the
 * order in which Python iterates it. A lookup uses the first binding of a
 * key; a Python dictionary never holds a key twice, so that binding is the
 * only one.
 */
module PyValues {

  datatype Option<+T> = None | Some(value: T)

  /** A Python value as it occurs in yt-dlp's info dictionaries. */
  datatype Value =
    | NoneValue
    | Bool(b: bool)
    | Int(i: int)
    | Str(s: string)
    | List(items: seq<Value>)
    | Dict(fields: seq<(string, Value)>)

  type Bindings = seq<(string, Value)>

  /** The exceptions the modelled code can raise or propagate. */
  datatype PyError =
    | TypeError
    | ValueError
    | KeyError
    | AttributeError
      // a pydantic model rejected the listed fields
    | ValidationError(fields: seq<string>)
      // an exception raised inside a collaborator (yt-dlp, the language model, the tool node)
    | Raised(name: string)
      // the graph run used up the step budget it was given
    | RecursionLimit

  datatype Result<+T> = Ok(value: T) | Err(error: PyError)

  /** Python truthiness (`bool(v)`). */
  predicate Truthy(v: Value)
    // the falsy values Python lists: None, False, zero, and the empty string, list and dict
    ensures !Truthy(v) <==> v in {NoneValue, Bool(false), Int(0), Str(""), List([]), Dict([])}
  {
    match v
    case NoneValue => false
    case Bool(b) => b
    case Int(i) => i != 0
    case Str(s) => s != []
    case List(items) => items != []
    case Dict(fields) => fields != []
  }

  /** `key in d` */
  predicate HasKey(d: Bindings, key: string) {
    exists j :: 0 <= j < |d| && d[j].0 == key
  }

  /** Index of the binding of `key`: the first one whose key matches. */
  function FindKey(d: Bindings, key: string): (r: Option<nat>)
    ensures r.Some? <==> HasKey(d, key)
    ensures r.Some? ==> r.value < |d| && d[r.value].0 == key
    ensures r.Some? ==> forall j :: 0 <= j < r.value ==> d[j].0 != key
  {
    if d == [] then None
    else if d[0].0 == key then Some(0)
    else match FindKey(d[1..], key)
      case None => None
      case Some(j) => Some(j + 1)
  }

  /** `d[key]` when the key is present. */
  function Lookup(d: Bindings, key: string): (r: Option<Value>)
    ensures r.Some? <==> HasKey(d, key)
  {
    match FindKey(d, key)
    case None => None
    case Some(j) => Some(d[j].1)
  }

  /** `d.get(key, default)` */
  function Get(d: Bindings, key: string, default: Value): (r: Value)
    ensures !HasKey(d, key) ==> r == default
    ensures HasKey(d, key) ==>
      exists j :: 0 <= j < |d| && d[j] == (key, r) && forall i :: 0 <= i < j ==> d[i].0 != key
  {
    match Lookup(d, key)
    case None => default
    case Some(v) => v
  }

  /** `d[key]`, raising KeyError when the key is absent. */
  function Index(d: Bindings, key: string): Result<Value> {
    match Lookup(d, key)
    case None => Err(KeyError)
    case Some(v) => Ok(v)
  }

  function Chars(s: string): (r: seq<Value>)
    ensures |r| == |s|
    ensures forall k :: 0 <= k < |s| ==> r[k] == Str([s[k]])
  {
    seq(|s|, k requires 0 <= k < |s| => Str([s[k]]))
  }

  function Keys(d: Bindings): (r: seq<Value>)
    ensures |r| == |d|
    ensures forall k :: 0 <= k < |d| ==> r[k] == Str(d[k].0)
  {
    seq(|d|, k requires 0 <= k < |d| => Str(d[k].0))
  }

  /** `key in d` holds exactly when iterating `d` yields the key. */
  lemma HasKeyIterates(d: Bindings, key: string)
    ensures HasKey(d, key) <==> Str(key) in Keys(d)
  {
  }

  /**
   * The elements a `for` loop or `list.extend` draws from `v`: the items
   * of a list, the one-character strings of a string, the keys of a
   * dictionary; any other value is not iterable.
   */
  function Iterate(v: Value): (r: Result<seq<Value>>)
    ensures r.Err? <==> v.NoneValue? || v.Bool? || v.Int?
    ensures r.Err? ==> r.error == TypeError
    ensures v.List? ==> r == Ok(v.items)
    ensures v.Str? ==> r == Ok(Chars(v.s))
    ensures v.Dict? ==> r == Ok(Keys(v.fields))
    ensures r.Ok? ==> (|r.value| == 0 <==> !Truthy(v))
  {
    match v
    case List(items) => Ok(items)
    case Str(s) => Ok(Chars(s))
    case Dict(fields) => Ok(Keys(fields))
    case _ => Err(TypeError)
  }

  /**
   * `v[-1]` on a truthy value: the last element iteration would yield, for
   * a list or a string; a dictionary has no key -1, and the rest cannot be
   * indexed.
   */
  function LastItem(v: Value): (r: Result<Value>)
    requires Truthy(v)
    ensures v.List? || v.Str? ==>
      && Iterate(v).Ok? && |Iterate(v).value| > 0
      && r == Ok(Iterate(v).value[|Iterate(v).value| - 1])
    ensures v.Dict? ==> r == Err(KeyError)
    ensures v.Bool? || v.Int? ==> r == Err(TypeError)
  {
    match v
    case List(items) => Ok(items[|items| - 1])
    case Str(s) => Ok(Str([s[|s| - 1]]))
      // a dictionary's keys are strings, so the integer key -1 is never present
    case Dict(_) => Err(KeyError)
    case _ => Err(TypeError)
  }

  /** `v['key']` */
  function Subscript(v: Value, key: string): (r: Result<Value>)
    ensures r.Ok? ==> v.Dict? && Lookup(v.fields, key) == Some(r.value)
    ensures v.Dict? && HasKey(v.fields, key) ==> r.Ok?
  {
    match v
    case Dict(fields) => Index(fields, key)
      // lists and strings need an integer index; the rest are not subscriptable
    case _ => Err(TypeError)
  }

  // ---------------------------------------------------------------
  // int(...) and str(...)
  // ---------------------------------------------------------------

  predicate IsDigit(c: char) { '0' <= c <= '9' }

  /** The ASCII characters Python counts as whitespace: space, `\t\n\v\f\r` and the separators `\x1c`-`\x1f`. */
  predicate IsSpace(c: char) {
    || c == ' ' || c == '\t' || c == '\n' || c == '\r' || c == '\U{B}' || c == '\U{C}'
    || c == '\U{1C}' || c == '\U{1D}' || c == '\U{1E}' || c == '\U{1F}'
  }

  function StripLeft(s: string): (r: string)
    ensures r != [] ==> !IsSpace(r[0])
  {
    if s != [] && IsSpace(s[0]) then StripLeft(s[1..]) else s
  }

  function StripRight(s: string): (r: string)
    ensures r != [] ==> !IsSpace(r[|r| - 1])
  {
    if s != [] && IsSpace(s[|s| - 1]) then StripRight(s[..|s| - 1]) else s
  }

  /** `str.strip()` restricted to the ASCII whitespace of `IsSpace`. */
  function Strip(s: string): string {
    StripRight(StripLeft(s))
  }

  /**
   * A digit string as `int` accepts it: digits, where single underscores
   * may separate two digits.
   */
  predicate DigitString(s: string) {
    && s != []
    && IsDigit(s[0])
    && IsDigit(s[|s| - 1])
    && (forall k :: 0 <= k < |s| ==> IsDigit(s[k]) || s[k] == '_')
    && (forall j, k :: 0 <= j < |s| && 0 <= k < |s| && k == j + 1 ==> !(s[j] == '_' && s[k] == '_'))
  }

  /** The number a digit string denotes; underscores are skipped. */
  function DigitsValue(s: string): nat {
    if s == [] then 0
    else
      var c := s[|s| - 1];
      if IsDigit(c) then DigitsValue(s[..|s| - 1]) * 10 + (c as int - '0' as int)
      else DigitsValue(s[..|s| - 1])
  }

  /** A digit string, possibly after one `+` or `-`. */
  predicate SignedDigits(t: string) {
    DigitString(t) || (t != [] && (t[0] == '-' || t[0] == '+') && DigitString(t[1..]))
  }

  /** `int(s)` for a string: surrounding whitespace, one optional sign, a digit string. */
  function ParseInt(s: string): (r: Result<int>)
    ensures r.Ok? <==> SignedDigits(Strip(s))
    ensures r.Err? ==> r.error == ValueError
    ensures r.Ok? && DigitString(Strip(s)) ==> r.value == DigitsValue(Strip(s))
    ensures r.Ok? && !DigitString(Strip(s)) ==>
      r.value == (if Strip(s)[0] == '-' then -(DigitsValue(Strip(s)[1..]) as int) else DigitsValue(Strip(s)[1..]))
  {
    var t := Strip(s);
    if t != [] && (t[0] == '-' || t[0] == '+') then
      if DigitString(t[1..]) then
        var n: int := DigitsValue(t[1..]);
        Ok(if t[0] == '-' then -n else n)
      else Err(ValueError)
    else if DigitString(t) then Ok(DigitsValue(t))
    else Err(ValueError)
  }

  /** `int(v)` */
  function IntOf(v: Value): (r: Result<int>)
    ensures v.Int? ==> r == Ok(v.i)
    ensures v.Bool? ==> r == Ok(if v.b then 1 else 0)
    ensures v.Str? ==> r == ParseInt(v.s)
    ensures v.NoneValue? || v.List? || v.Dict? ==> r == Err(TypeError)
  {
    match v
    case Int(i) => Ok(i)
    case Bool(b) => Ok(if b then 1 else 0)
    case Str(s) => ParseInt(s)
    case _ => Err(TypeError)
  }

  function DigitChar(d: nat): (c: char)
    requires d < 10
    ensures IsDigit(c) && c as int - '0' as int == d
  {
    (('0' as int) + d) as char
  }

  /** Decimal digits of `n`, most significant first, without leading zeros. */
  function Decimal(n: nat): string {
    if n < 10 then [DigitChar(n)] else Decimal(n / 10) + [DigitChar(n % 10)]
  }

  /** The form `str` gives a non-negative integer: plain digits, no underscores, no leading zero. */
  predicate Canonical(s: string) {
    && s != []
    && (forall k :: 0 <= k < |s| ==> IsDigit(s[k]))
    && (s[0] == '0' ==> s == "0")
  }

  lemma {:induction false} DecimalCanonical(n: nat)
    ensures Canonical(Decimal(n))
    ensures Decimal(n)[0] == '0' ==> n == 0
  {
    if n >= 10 {
      DecimalCanonical(n / 10);
      assert Decimal(n)[0] == Decimal(n / 10)[0];
    }
  }

  /** A canonical digit string has a non-zero value unless it is "0". */
  lemma {:induction false} CanonicalPositive(s: string)
    requires s != [] && forall k :: 0 <= k < |s| ==> IsDigit(s[k])
    requires s[0] != '0'
    ensures DigitsValue(s) >= 1
  {
    if |s| > 1 {
      CanonicalPositive(s[..|s| - 1]);
    }
  }

  /** There is one canonical digit string per number: the one `Decimal` gives. */
  lemma {:induction false} CanonicalUnique(s: string)
    requires Canonical(s)
    ensures s == Decimal(DigitsValue(s))
  {
    var init := s[..|s| - 1];
    var d := s[|s| - 1] as int - '0' as int;
    if |s| == 1 {
      assert DigitsValue(s) == DigitsValue(init) * 10 + d;
      assert init == [];
    } else {
      assert init[0] == s[0];
      CanonicalPositive(init);
      CanonicalUnique(init);
      var n := DigitsValue(s);
      assert n == DigitsValue(init) * 10 + d;
      assert n / 10 == DigitsValue(init) && n % 10 == d;
      assert s == init + [s[|s| - 1]];
    }
  }

  /**
   * `str(v)`, as an f-string renders a value. Lists and dictionaries are
   * rendered as fixed placeholders: their Python repr is not modelled.
   */
  function Format(v: Value): (r: string)
    ensures v.NoneValue? ==> r == "None"
    ensures v.Bool? ==> r == (if v.b then "True" else "False")
    ensures v.Str? ==> r == v.s
    ensures v.Int? && v.i >= 0 ==> DigitString(r) && DigitsValue(r) == v.i
    ensures v.Int? && v.i < 0 ==> r != [] && r[0] == '-' && DigitString(r[1..]) && DigitsValue(r[1..]) == -v.i
    // the canonical rendering: no underscores and no leading zero
    ensures v.Int? && v.i >= 0 ==> Canonical(r)
    ensures v.Int? && v.i < 0 ==> Canonical(r[1..]) && r[1] != '0'
  {
    match v
    case NoneValue => "None"
    case Bool(b) => if b then "True" else "False"
    case Int(i) =>
      if i < 0 then
        NegativeRendering(-i);
        "-" + Decimal(-i)
      else
        DecimalValue(i);
        DecimalCanonical(i);
        Decimal(i)
    case Str(s) => s
    case List(_) => "[...]"
    case Dict(_) => "{...}"
  }

  /** `"-"` followed by the decimal digits of a positive magnitude. */
  lemma NegativeRendering(m: nat)
    requires m > 0
    ensures var r := "-" + Decimal(m);
      && r != [] && r[0] == '-' && r[1..] == Decimal(m)
      && DigitString(r[1..]) && DigitsValue(r[1..]) == m
      && Canonical(r[1..]) && r[1] != '0'
  {
    DecimalValue(m);
    DecimalCanonical(m);
    assert ("-" + Decimal(m))[1..] == Decimal(m);
  }

  lemma {:induction false} DecimalValue(n: nat)
    ensures DigitString(Decimal(n)) && DigitsValue(Decimal(n)) == n
  {
    if n >= 10 {
      DecimalValue(n / 10);
      var s := Decimal(n);
      assert s[..|s| - 1] == Decimal(n / 10);
    }
  }

  lemma StripDigits(s: string)
    requires s != [] && !IsSpace(s[0]) && !IsSpace(s[|s| - 1])
    ensures Strip(s) == s
  {
  }

  /** `int` reads a digit string, signed or not, as the number it denotes. */
  lemma ParseIntDigits(d: string, n: nat)
    requires DigitString(d) && DigitsValue(d) == n
    ensures ParseInt(d) == Ok(n)
    ensures ParseInt("-" + d) == Ok(-(n as int))
  {
    StripDigits(d);
    var m := "-" + d;
    assert m[0] == '-' && m[1..] == d && m[|m| - 1] == d[|d| - 1];
    StripDigits(m);
    assert Strip(m) == m;
  }

  lemma ReadNegative(i: int)
    requires i < 0
    ensures ParseInt(Format(Int(i))) == Ok(i)
  {
    assert Format(Int(i)) == "-" + Decimal(-i);
    DecimalValue(-i);
    ParseIntDigits(Decimal(-i), -i);
  }

  lemma ReadNonNegative(i: int)
    requires i >= 0
    ensures ParseInt(Format(Int(i))) == Ok(i)
  {
    DecimalValue(i);
    ParseIntDigits(Decimal(i), i);
  }

  /** `int(str(i)) == i`: the integer rendering read back by `int`. */
  lemma IntOfFormat(i: int)
    ensures IntOf(Str(Format(Int(i)))) == Ok(i)
  {
    if i < 0 {
      ReadNegative(i);
    } else {
      ReadNonNegative(i);
    }
  }
}
