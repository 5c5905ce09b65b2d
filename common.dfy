/** Values shared by every part of the taxi model: optional values and
    results, the JSON values that travel over sockets and the channel layer,
    request parameters before coercion, and decimal identifiers. */
module Common {

  datatype Option<T> = None | Some(value: T)

  /** The error responses the views return. */
  datatype Failure = BadRequest | Forbidden | NotFound | ServerError {
    function Code(): nat {
      match this
      case BadRequest => 400
      case Forbidden => 403
      case NotFound => 404
      case ServerError => 500
    }
  }

  datatype Result<T> = Ok(value: T) | Err(error: Failure)

  /** A JSON value. Numbers are exact reals; objects are maps from keys. */
  datatype Json =
    | JNull
    | JBool(b: bool)
    | JNum(n: real)
    | JStr(s: string)
    | JArr(items: seq<Json>)
    | JObj(fields: map<string, Json>)

  /** Python's `d.get(key, default)` on a decoded JSON object. */
  function Get(fields: map<string, Json>, key: string, default: Json): (v: Json)
    ensures key in fields ==> v == fields[key]
    ensures key !in fields ==> v == default
  {
    if key in fields then fields[key] else default
  }

  /** A request parameter as the view receives it: missing, a number from a
      JSON body, or text from a form or query string. Converting text with
      Python's `float()` is not modelled character by character: `asFloat`
      is what that conversion yields (None when it raises ValueError). */
  datatype Raw = Absent | Number(n: real) | Text(text: string, asFloat: Option<real>)

  /** Python truthiness of a parameter: None, 0 and "" are false. */
  predicate Truthy(v: Raw) {
    match v
    case Absent => false
    case Number(n) => n != 0.0
    case Text(t, _) => t != ""
  }

  /** `float(v)`: None stands for the TypeError or ValueError it raises. */
  function ToFloat(v: Raw): (r: Option<real>)
    ensures v.Absent? ==> r.None?
    ensures v.Number? ==> r == Some(v.n)
  {
    match v
    case Absent => None
    case Number(n) => Some(n)
    case Text(_, f) => f
  }

  // ---------------------------------------------------------------------
  // Decimal identifiers: `str(n)` for a primary key, and the digit strings
  // that the websocket routes capture with `\d+`.

  predicate IsDigit(c: char) { '0' <= c <= '9' }

  predicate AllDigits(s: string) { forall i :: 0 <= i < |s| ==> IsDigit(s[i]) }

  /** A non-empty string of decimal digits, as matched by `\d+`. */
  predicate IsDigits(s: string) { |s| > 0 && AllDigits(s) }

  function DigitChar(d: nat): (c: char)
    requires d < 10
    ensures IsDigit(c) && c as int - '0' as int == d
  {
    ('0' as int + d) as char
  }

  /** Python's `str(n)` for a non-negative integer: no sign, no leading zero. */
  function NatToDigits(n: nat): (s: string)
    ensures IsDigits(s)
    ensures |s| > 1 ==> s[0] != '0'
    decreases n
  {
    if n < 10 then [DigitChar(n)] else NatToDigits(n / 10) + [DigitChar(n % 10)]
  }

  /** The value of a string of decimal digits. */
  function DigitsToNat(s: string): nat
    requires AllDigits(s)
    decreases |s|
  {
    if s == [] then 0
    else DigitsToNat(s[..|s| - 1]) * 10 + (s[|s| - 1] as int - '0' as int)
  }

  /** Reading back the decimal form of `n` gives `n`. */
  lemma {:induction false} DigitsRoundTrip(n: nat)
    ensures DigitsToNat(NatToDigits(n)) == n
    decreases n
  {
    var s := NatToDigits(n);
    if n >= 10 {
      DigitsRoundTrip(n / 10);
      assert s[..|s| - 1] == NatToDigits(n / 10);
    }
  }

  /** Distinct keys have distinct decimal forms, so `prefix + str(id)`
      names one group per id. */
  lemma NatToDigitsInjective(a: nat, b: nat)
    ensures NatToDigits(a) == NatToDigits(b) ==> a == b
  {
    DigitsRoundTrip(a);
    DigitsRoundTrip(b);
  }

  // ---------------------------------------------------------------------
  // Queries over ordered tables.

  /** The elements of `s` that satisfy `p`, in their order in `s`
      (a queryset `.filter(...)` or a loop that appends matches). */
  function Filter<T(!new)>(s: seq<T>, p: T -> bool): (r: seq<T>)
    ensures |r| <= |s|
    ensures forall x :: x in r <==> x in s && p(x)
    decreases |s|
  {
    if s == [] then []
    else Filter(s[..|s| - 1], p) + (if p(s[|s| - 1]) then [s[|s| - 1]] else [])
  }

  /** Reading one more element of a table extends the filtered list by
      that element exactly when it passes. */
  lemma FilterSnoc<T(!new)>(s: seq<T>, i: nat, p: T -> bool)
    requires i < |s|
    ensures Filter(s[..i + 1], p) == Filter(s[..i], p) + (if p(s[i]) then [s[i]] else [])
  {
    assert s[..i + 1][..i] == s[..i];
  }

  /** The first index whose element satisfies `p` (a `.get(...)` or `.first()`
      over a table kept in key order). */
  function IndexOf<T>(s: seq<T>, p: T -> bool): (r: Option<nat>)
    ensures r.Some? ==> r.value < |s| && p(s[r.value])
    ensures r.Some? ==> forall j :: 0 <= j < r.value ==> !p(s[j])
    ensures r.None? ==> forall j :: 0 <= j < |s| ==> !p(s[j])
    decreases |s|
  {
    if s == [] then None
    else match IndexOf(s[..|s| - 1], p)
      case Some(i) => Some(i)
      case None => if p(s[|s| - 1]) then Some(|s| - 1) else None
  }

  /** Every pair of positions i < j in `s` is related by `rel`. */
  ghost predicate Pairwise<T>(s: seq<T>, rel: (T, T) -> bool) {
    forall i, j :: 0 <= i < j < |s| ==> rel(s[i], s[j])
  }

  /** Filtering keeps the relative order of what it keeps, so any property
      of ordered pairs survives it (key order, uniqueness constraints). */
  lemma {:induction false} FilterPairwise<T(!new)>(s: seq<T>, p: T -> bool, rel: (T, T) -> bool)
    requires Pairwise(s, rel)
    ensures Pairwise(Filter(s, p), rel)
    decreases |s|
  {
    if s != [] {
      var init := s[..|s| - 1];
      var last := s[|s| - 1];
      assert Pairwise(init, rel) by {
        forall i, j | 0 <= i < j < |init| ensures rel(init[i], init[j]) {
          assert init[i] == s[i] && init[j] == s[j];
        }
      }
      FilterPairwise(init, p, rel);
      var f := Filter(init, p);
      if p(last) {
        var r := f + [last];
        forall i, j | 0 <= i < j < |r| ensures rel(r[i], r[j]) {
          if j < |f| {
            assert r[i] == f[i] && r[j] == f[j];
          } else {
            assert r[i] == f[i] && f[i] in init;
            var k :| 0 <= k < |init| && init[k] == f[i];
            assert s[k] == f[i] && s[|s| - 1] == last;
          }
        }
      }
    }
  }
}
