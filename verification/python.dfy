/** The slice of Python's value semantics that the collector and the two CSV
    converters rely on: JSON documents as Python sees them after `json.loads`,
    truthiness (what `if x`, `not x` and `x or y` test), `dict.get`, iteration,
    `str()`, `str.strip()`, `",".join(...)` and the `int()` / `float()`
    conversions. Where Python raises, the model returns `Raise`. */
module Python {

  datatype Option<+T> = None | Some(value: T)

  /** The exceptions the modelled code can raise on malformed input. */
  datatype PyError = AttributeError | TypeError | ValueError

  /** A computation that either returns a value or raises. Failure-compatible,
      so `var x :- F(); ...` propagates an exception as Python does. */
  datatype Result<+T> = Ok(value: T) | Raise(error: PyError) {
    predicate IsFailure() {
      Raise?
    }

    function PropagateFailure<U>(): Result<U>
      requires Raise?
    {
      Raise(error)
    }

    function Extract(): T
      requires Ok?
    {
      value
    }
  }

  /** A Python dict produced by `json.loads`: string keys in insertion order. */
  type Fields = seq<(string, Json)>

  /** A JSON document as a Python value. */
  datatype Json =
    | JNull
    | JBool(b: bool)
    | JInt(i: int)
    | JFloat(f: real)
    | JStr(s: string)
    | JList(items: seq<Json>)
    | JDict(fields: Fields)

  /** Python truthiness: None, False, 0, 0.0, "", [] and {} are false. */
  predicate Truthy(j: Json) {
    match j
    case JNull => false
    case JBool(b) => b
    case JInt(i) => i != 0
    case JFloat(f) => f != 0.0
    case JStr(s) => |s| > 0
    case JList(xs) => |xs| > 0
    case JDict(fs) => |fs| > 0
  }

  /** Exactly the seven empty values are falsy. */
  lemma TruthyFalsy(j: Json)
    ensures !Truthy(j) <==>
              j == JNull || j == JBool(false) || j == JInt(0) || j == JFloat(0.0) ||
              j == JStr("") || j == JList([]) || j == JDict([])
  {
  }

  /** Python's `a or b`. */
  function Or(a: Json, b: Json): Json {
    if Truthy(a) then a else b
  }

  /** `a or b` is one of its operands: `a` when `a` is truthy, `b` otherwise;
      so it is truthy exactly when one of them is. */
  lemma OrChoice(a: Json, b: Json)
    ensures Truthy(a) ==> Or(a, b) == a
    ensures !Truthy(a) ==> Or(a, b) == b
    ensures Truthy(Or(a, b)) <==> Truthy(a) || Truthy(b)
  {
  }

  /** Python's `if s` for an `Optional[str]`. */
  predicate SomeText(s: Option<string>) {
    s.Some? && s.value != ""
  }

  predicate HasKey(d: Fields, k: string) {
    exists i :: 0 <= i < |d| && d[i].0 == k
  }

  /** The value stored under `k`, if any. */
  function Find(d: Fields, k: string): Option<Json> {
    if |d| == 0 then None
    else if d[0].0 == k then Some(d[0].1)
    else Find(d[1..], k)
  }

  /** A lookup finds the value of the first pair with that key, and finds
      nothing exactly when no pair has it. */
  lemma {:induction false} FindFirst(d: Fields, k: string)
    ensures Find(d, k).None? <==> !HasKey(d, k)
    ensures Find(d, k).Some? ==>
              exists i :: 0 <= i < |d| && d[i] == (k, Find(d, k).value) && forall j :: 0 <= j < i ==> d[j].0 != k
  {
    if |d| > 0 && d[0].0 != k {
      FindFirst(d[1..], k);
      assert forall i :: 0 < i < |d| ==> d[i] == d[1..][i - 1];
      if Find(d, k).Some? {
        var i :| 0 <= i < |d[1..]| && d[1..][i] == (k, Find(d, k).value) && forall j :: 0 <= j < i ==> d[1..][j].0 != k;
        assert d[i + 1] == (k, Find(d, k).value);
        assert forall j :: 0 <= j < i + 1 ==> d[j].0 != k;
      }
    } else if |d| > 0 {
      assert HasKey(d, k);
    }
  }

  /** Python's `d.get(k, default)`. */
  function GetOr(d: Fields, k: string, default: Json): Json {
    match Find(d, k)
    case Some(v) => v
    case None => default
  }

  /** `d.get(k, default)` is the value of the first pair keyed `k`, and the
      default exactly when no pair has that key. */
  lemma GetOrFirst(d: Fields, k: string, default: Json)
    ensures !HasKey(d, k) ==> GetOr(d, k, default) == default
    ensures HasKey(d, k) ==>
              exists i :: 0 <= i < |d| && d[i] == (k, GetOr(d, k, default)) && forall j :: 0 <= j < i ==> d[j].0 != k
  {
    FindFirst(d, k);
  }

  /** Python's `d.get(k)`. */
  function Get(d: Fields, k: string): Json {
    GetOr(d, k, JNull)
  }

  /** Python's `d[k] = v`: the first pair keyed `k` takes the new value, and a
      missing key is added at the end. */
  function SetKey(d: Fields, k: string, v: Json): Fields {
    if |d| == 0 then [(k, v)]
    else if d[0].0 == k then [(k, v)] + d[1..]
    else [d[0]] + SetKey(d[1..], k, v)
  }

  /** After `d[k] = v`, `d.get(k)` is `v` and every other key reads as before. */
  lemma {:induction false} SetKeyGet(d: Fields, k: string, v: Json, other: string)
    ensures Get(SetKey(d, k, v), k) == v
    ensures other != k ==> Get(SetKey(d, k, v), other) == Get(d, other)
  {
    if |d| > 0 && d[0].0 != k {
      SetKeyGet(d[1..], k, v, other);
      assert SetKey(d, k, v)[1..] == SetKey(d[1..], k, v);
    } else if |d| > 0 {
      assert SetKey(d, k, v)[1..] == d[1..];
      if other != k {
        assert Find(SetKey(d, k, v), other) == Find(d[1..], other) == Find(d, other);
      }
    } else {
      assert SetKey(d, k, v)[1..] == [];
    }
  }

  /** Calling a `dict` method on `j`: anything but a dict has no `.get`. */
  function AsDict(j: Json): (r: Result<Fields>)
    ensures r.Ok? <==> j.JDict?
    ensures r.Raise? ==> r.error == AttributeError
    ensures j.JDict? ==> r.value == j.fields
  {
    match j
    case JDict(fs) => Ok(fs)
    case _ => Raise(AttributeError)
  }

  /** The keys of a dict, as the strings a `for` loop over it yields. */
  function Keys(d: Fields): (r: seq<Json>)
    ensures |r| == |d|
    ensures forall i :: 0 <= i < |d| ==> r[i] == JStr(d[i].0)
  {
    seq(|d|, i requires 0 <= i < |d| => JStr(d[i].0))
  }

  /** The one-character strings a `for` loop over a string yields. */
  function Chars(s: string): (r: seq<Json>)
    ensures |r| == |s|
    ensures forall i :: 0 <= i < |s| ==> r[i] == JStr([s[i]])
  {
    seq(|s|, i requires 0 <= i < |s| => JStr([s[i]]))
  }

  /** What `for x in j` iterates over; None, booleans and numbers are not
      iterable. */
  function Iterate(j: Json): (r: Result<seq<Json>>)
    ensures r.Raise? <==> (j.JNull? || j.JBool? || j.JInt? || j.JFloat?)
    ensures r.Raise? ==> r.error == TypeError
    ensures j.JList? ==> r == Ok(j.items)
    ensures r.Ok? && !j.JList? ==> forall x :: x in r.value ==> x.JStr?
  {
    match j
    case JList(xs) => Ok(xs)
    case JDict(fs) => Ok(Keys(fs))
    case JStr(s) => Ok(Chars(s))
    case _ => Raise(TypeError)
  }

  function JoinStrings(sep: string, xs: seq<string>): string {
    if |xs| == 0 then ""
    else if |xs| == 1 then xs[0]
    else xs[0] + sep + JoinStrings(sep, xs[1..])
  }

  /** Python's `sep.join(xs)`: every element must be a string. */
  function Join(sep: string, xs: seq<Json>): (r: Result<string>)
    ensures r.Ok? <==> forall i :: 0 <= i < |xs| ==> xs[i].JStr?
    ensures r.Raise? ==> r.error == TypeError
    ensures r.Ok? ==> r.value == JoinStrings(sep, seq(|xs|, i requires 0 <= i < |xs| && xs[i].JStr? => xs[i].s))
  {
    if forall i :: 0 <= i < |xs| ==> xs[i].JStr? then
      Ok(JoinStrings(sep, seq(|xs|, i requires 0 <= i < |xs| && xs[i].JStr? => xs[i].s)))
    else Raise(TypeError)
  }

  /** `",".join(x) if isinstance(x, list) else None`. */
  function CommaJoined(x: Json): (r: Result<Json>)
    ensures !x.JList? ==> r == Ok(JNull)
    ensures x.JList? ==> (r.Ok? <==> forall i :: 0 <= i < |x.items| ==> x.items[i].JStr?)
    ensures x.JList? && r.Ok? ==> r.value.JStr? && r.value.s == Join(",", x.items).value
  {
    if x.JList? then
      var s :- Join(",", x.items);
      Ok(JStr(s))
    else Ok(JNull)
  }

  // ---------------------------------------------------------------------
  // str.strip()
  // ---------------------------------------------------------------------

  /** Python's `str.isspace` for one character. */
  predicate IsSpace(c: char) {
    || c == ' ' || c == '\t' || c == '\n' || c == '\r' || c == '\U{000B}' || c == '\U{000C}'
    || ('\U{001C}' <= c <= '\U{001F}') || c == '\U{0085}' || c == '\U{00A0}' || c == '\U{1680}'
    || ('\U{2000}' <= c <= '\U{200A}') || c == '\U{2028}' || c == '\U{2029}' || c == '\U{202F}'
    || c == '\U{205F}' || c == '\U{3000}'
  }

  predicate AllSpace(s: string) {
    forall i :: 0 <= i < |s| ==> IsSpace(s[i])
  }

  function StripLeft(s: string): (r: string)
    ensures |r| <= |s| && r == s[|s| - |r|..]
    ensures AllSpace(s[..|s| - |r|])
    ensures r == "" || !IsSpace(r[0])
  {
    if |s| > 0 && IsSpace(s[0]) then
      var r := StripLeft(s[1..]);
      assert s[1..][..|s| - 1 - |r|] == s[1..|s| - |r|];
      r
    else s
  }

  function StripRight(s: string): (r: string)
    ensures |r| <= |s| && r == s[..|r|]
    ensures AllSpace(s[|r|..])
    ensures r == "" || !IsSpace(r[|r| - 1])
  {
    if |s| > 0 && IsSpace(s[|s| - 1]) then
      var r := StripRight(s[..|s| - 1]);
      assert s[..|s| - 1][|r|..] == s[|r|..|s| - 1];
      assert s[|r|..] == s[|r|..|s| - 1] + [s[|s| - 1]];
      r
    else s
  }

  /** A prefix `r` of a suffix `l` of `s` is a slice of `s`, and what
      follows `r` in `l` is what follows that slice in `s`. */
  lemma PrefixOfSuffix<T>(s: seq<T>, l: seq<T>, r: seq<T>, i: nat)
    requires i <= |s| && l == s[i..] && |r| <= |l| && r == l[..|r|]
    ensures r == s[i..i + |r|] && l[|r|..] == s[i + |r|..]
  {
  }

  /** The part `Strip` keeps lies between whitespace-only ends. */
  lemma StripBounds(s: string)
    ensures var r := StripRight(StripLeft(s));
            exists i, j :: 0 <= i <= j <= |s| && r == s[i..j] && AllSpace(s[..i]) && AllSpace(s[j..])
  {
    var l := StripLeft(s);
    var r := StripRight(l);
    var i := |s| - |l|;
    var j := i + |r|;
    PrefixOfSuffix(s, l, r, i);
    assert AllSpace(s[..i]) && AllSpace(s[j..]);
  }

  /** The part `Strip` keeps neither starts nor ends with whitespace. */
  lemma StripEnds(s: string)
    ensures var r := StripRight(StripLeft(s));
            r == "" || (!IsSpace(r[0]) && !IsSpace(r[|r| - 1]))
  {
    var l := StripLeft(s);
    var r := StripRight(l);
    assert r != "" ==> r[0] == l[0];
  }

  /** Python's `s.strip()`: the slice of `s` left once leading and trailing
      whitespace are removed. */
  function Strip(s: string): (r: string)
    ensures exists i, j :: 0 <= i <= j <= |s| && r == s[i..j] && AllSpace(s[..i]) && AllSpace(s[j..])
    ensures r == "" || (!IsSpace(r[0]) && !IsSpace(r[|r| - 1]))
  {
    StripBounds(s);
    StripEnds(s);
    StripRight(StripLeft(s))
  }

  /** Stripping an already stripped string changes nothing. */
  lemma StripIdempotent(s: string)
    ensures Strip(Strip(s)) == Strip(s)
  {
    var t := Strip(s);
    if t != "" {
      assert !IsSpace(t[0]) && !IsSpace(t[|t| - 1]);
    }
  }

  // ---------------------------------------------------------------------
  // Decimal integers: str(int) and int(str)
  // ---------------------------------------------------------------------

  function DigitChar(d: nat): (c: char)
    requires d < 10
    ensures IsDigit(c) && c as int - '0' as int == d
  {
    (d + '0' as int) as char
  }

  predicate IsDigit(c: char) {
    '0' <= c <= '9'
  }

  predicate AllDigits(s: string) {
    |s| > 0 && forall i :: 0 <= i < |s| ==> IsDigit(s[i])
  }

  function NatStr(n: nat): (r: string)
    ensures AllDigits(r)
    decreases n
  {
    if n < 10 then [DigitChar(n)] else NatStr(n / 10) + [DigitChar(n % 10)]
  }

  /** Python's `str(i)` for an int. */
  function IntStr(i: int): string {
    if i < 0 then "-" + NatStr(-i) else NatStr(i)
  }

  /** The number a string of decimal digits denotes. */
  function DigitsValue(s: string): nat
    requires forall i :: 0 <= i < |s| ==> IsDigit(s[i])
  {
    if |s| == 0 then 0
    else
      var d := s[|s| - 1] as int - '0' as int;
      assert IsDigit(s[|s| - 1]);
      DigitsValue(s[..|s| - 1]) * 10 + d
  }

  /** Python's `int(s)` for a string: optional surrounding whitespace, an
      optional sign, then ASCII digits; anything else is a ValueError. */
  function ParseInt(s: string): Option<int> {
    ParseSigned(Strip(s))
  }

  /** An optional sign followed by ASCII digits. */
  function ParseSigned(t: string): Option<int> {
    if AllDigits(t) then Some(DigitsValue(t))
    else if |t| > 1 && (t[0] == '-' || t[0] == '+') && AllDigits(t[1..]) then
      Some(if t[0] == '-' then 0 - DigitsValue(t[1..]) else DigitsValue(t[1..]))
    else None
  }

  lemma {:induction false} NatStrValue(n: nat)
    ensures DigitsValue(NatStr(n)) == n
    decreases n
  {
    if n >= 10 {
      var s := NatStr(n);
      NatStrValue(n / 10);
      assert s[..|s| - 1] == NatStr(n / 10);
    }
  }

  /** A string with no whitespace at either end is its own strip. */
  lemma StripUnchanged(s: string)
    requires s == "" || (!IsSpace(s[0]) && !IsSpace(s[|s| - 1]))
    ensures Strip(s) == s
  {
    assert StripLeft(s) == s;
    assert StripRight(s) == s;
  }

  lemma SignedNegative(n: nat)
    requires n > 0
    ensures ParseSigned("-" + NatStr(n)) == Some(-(n as int))
  {
    var t := NatStr(n);
    var s := "-" + t;
    assert s[1..] == t;
    assert !AllDigits(s) by { assert !IsDigit(s[0]); }
    NatStrValue(n);
  }

  lemma SignedNatural(n: nat)
    ensures ParseSigned(NatStr(n)) == Some(n)
  {
    NatStrValue(n);
  }

  /** Text without surrounding whitespace parses as it stands. */
  lemma ParseTrimmed(s: string)
    requires s == "" || (!IsSpace(s[0]) && !IsSpace(s[|s| - 1]))
    ensures ParseInt(s) == ParseSigned(s)
  {
    StripUnchanged(s);
  }

  lemma DigitNotSpace(c: char)
    requires IsDigit(c)
    ensures !IsSpace(c)
  {
  }

  /** `int(str(i)) == i`: decimal rendering and parsing are inverse. */
  lemma IntStrRoundTrip(i: int)
    ensures ParseInt(IntStr(i)) == Some(i)
  {
    var s := IntStr(i);
    if i < 0 {
      var t := NatStr(-i);
      assert IsDigit(t[|t| - 1]);
      assert s == "-" + t && s[0] == '-' && s[|s| - 1] == t[|t| - 1];
      DigitNotSpace(t[|t| - 1]);
      ParseTrimmed(s);
      SignedNegative(-i);
    } else {
      var t := NatStr(i);
      assert IsDigit(t[0]) && IsDigit(t[|t| - 1]);
      DigitNotSpace(t[0]);
      DigitNotSpace(t[|t| - 1]);
      ParseTrimmed(s);
      SignedNatural(i);
    }
  }

  /** Distinct integers have distinct `str()`: keying on `str(i)` never merges
      two integer ids. */
  lemma IntStrInjective(a: int, b: int)
    requires IntStr(a) == IntStr(b)
    ensures a == b
  {
    IntStrRoundTrip(a);
    IntStrRoundTrip(b);
  }

  // ---------------------------------------------------------------------
  // int() and float() of a JSON value
  // ---------------------------------------------------------------------

  /** Truncation toward zero, as Python's `int()` of a float. */
  function Trunc(f: real): int {
    if f >= 0.0 then f.Floor else -((-f).Floor)
  }

  /** Truncation keeps the sign and drops less than one. */
  lemma TruncTowardZero(f: real)
    ensures f >= 0.0 ==> 0 <= Trunc(f) && Trunc(f) as real <= f < Trunc(f) as real + 1.0
    ensures f < 0.0 ==> Trunc(f) <= 0 && Trunc(f) as real - 1.0 < f <= Trunc(f) as real
  {
  }

  /** Python's `int(j)`. */
  function ToInt(j: Json): (r: Result<int>)
    ensures j.JInt? ==> r == Ok(j.i)
    ensures j.JBool? ==> r == Ok(if j.b then 1 else 0)
    ensures j.JFloat? ==> r == Ok(Trunc(j.f))
    ensures j.JStr? ==> (r.Ok? <==> ParseInt(j.s).Some?) && (r.Ok? ==> r.value == ParseInt(j.s).value)
    ensures (j.JNull? || j.JList? || j.JDict?) ==> r == Raise(TypeError)
  {
    match j
    case JBool(b) => Ok(if b then 1 else 0)
    case JInt(i) => Ok(i)
    case JFloat(f) => Ok(Trunc(f))
    case JStr(s) =>
      (match ParseInt(s)
       case Some(n) => Ok(n)
       case None => Raise(ValueError))
    case _ => Raise(TypeError)
  }

  /** Python's `float(j)`. */
  function ToFloat(j: Json): (r: Result<real>)
    ensures j.JFloat? ==> r == Ok(j.f)
    ensures j.JInt? ==> r == Ok(j.i as real)
    ensures (j.JNull? || j.JList? || j.JDict?) ==> r == Raise(TypeError)
  {
    match j
    case JBool(b) => Ok(if b then 1.0 else 0.0)
    case JInt(i) => Ok(i as real)
    case JFloat(f) => Ok(f)
    case JStr(s) =>
      (match ParseInt(s)
       case Some(n) => Ok(n as real)
       case None => Raise(ValueError))
    case _ => Raise(TypeError)
  }

  // ---------------------------------------------------------------------
  // str() of a JSON value
  // ---------------------------------------------------------------------

  /** Up to `n` decimal digits of a fraction `0 <= x < 1`, trailing zeros dropped. */
  function FracDigits(x: real, n: nat): string
    requires 0.0 <= x < 1.0
    decreases n
  {
    if n == 0 || x == 0.0 then ""
    else
      var y := x * 10.0;
      var d := y.Floor;
      assert 0 <= d < 10;
      [DigitChar(d)] + FracDigits(y - d as real, n - 1)
  }

  /** `str()` of a float written as a plain decimal with at most 17 fractional digits. */
  function FloatStr(f: real): string
    decreases if f < 0.0 then 1 else 0
  {
    if f < 0.0 then "-" + FloatStr(-f)
    else
      var w := f.Floor;
      var frac := FracDigits(f - w as real, 17);
      IntStr(w) + "." + (if frac == "" then "0" else frac)
  }

  function BoolStr(b: bool): string {
    if b then "True" else "False"
  }

  /** One character of a string literal, with backslash, newline, carriage
      return, tab and the enclosing quote `q` escaped. */
  function EscapeChar(c: char, q: char): string {
    if c == '\\' then "\\\\"
    else if c == '\n' then "\\n"
    else if c == '\r' then "\\r"
    else if c == '\t' then "\\t"
    else if c == q then ['\\', q]
    else [c]
  }

  function Escape(s: string, q: char): string {
    if |s| == 0 then "" else EscapeChar(s[0], q) + Escape(s[1..], q)
  }

  /** `repr()` of a string: double quotes when it holds a single quote and no
      double quote, single quotes otherwise, with the chosen quote escaped. */
  function StrRepr(s: string): string {
    if '\'' in s && '"' !in s then "\"" + Escape(s, '"') + "\""
    else "'" + Escape(s, '\'') + "'"
  }

  predicate Plain(c: char, q: char) {
    c != '\\' && c != '\n' && c != '\r' && c != '\t' && c != q
  }

  /** Text with nothing to escape is written as it stands. */
  lemma {:induction false} EscapePlain(s: string, q: char)
    requires forall i :: 0 <= i < |s| ==> Plain(s[i], q)
    ensures Escape(s, q) == s
  {
    if |s| > 0 {
      EscapePlain(s[1..], q);
      assert s == [s[0]] + s[1..];
    }
  }

  /** A string with no quote or escaped character is wrapped in single quotes;
      one with an apostrophe and no double quote is wrapped in double quotes and
      keeps its apostrophe unescaped. */
  lemma StrReprQuotes(s: string)
    requires forall i :: 0 <= i < |s| ==> Plain(s[i], '\'') && s[i] != '"'
    ensures StrRepr(s) == "'" + s + "'"
  {
    EscapePlain(s, '\'');
  }

  lemma StrReprApostrophe(s: string)
    requires '\'' in s
    requires forall i :: 0 <= i < |s| ==> Plain(s[i], '"')
    ensures StrRepr(s) == "\"" + s + "\""
  {
    EscapePlain(s, '"');
  }

  /** `repr()` of a JSON value, as it appears inside `str()` of a container. */
  function Repr(j: Json): string
    decreases j, 1
  {
    match j
    case JStr(s) => StrRepr(s)
    case _ => Str(j)
  }

  /** Python's `str(j)`. */
  function Str(j: Json): (r: string)
    ensures r == "" <==> j == JStr("")
    decreases j, 0
  {
    match j
    case JNull => "None"
    case JBool(b) => BoolStr(b)
    case JInt(i) => IntStr(i)
    case JFloat(f) => FloatStr(f)
    case JStr(s) => s
    case JList(xs) =>
      "[" + JoinStrings(", ", seq(|xs|, k requires 0 <= k < |xs| => Repr(xs[k]))) + "]"
    case JDict(fs) =>
      "{" + JoinStrings(", ", seq(|fs|, k requires 0 <= k < |fs| => StrRepr(fs[k].0) + ": " + Repr(fs[k].1))) + "}"
  }

  /** `str(["it's"])` is `["it's"]`: the element's repr takes double quotes. */
  lemma ApostropheInList()
    ensures Str(JList([JStr("it's")])) == "[\"it's\"]"
  {
    StrReprApostrophe("it's");
  }

  /** A truthy value never renders as the empty string. */
  lemma TruthyStrNonEmpty(j: Json)
    requires Truthy(j)
    ensures Str(j) != ""
  {
  }

  // ---------------------------------------------------------------------
  // Loops over lists
  // ---------------------------------------------------------------------

  /** The dict elements of a list, in order: the ones `isinstance(x, dict)`
      lets through. */
  function DictElements(xs: seq<Json>): (r: seq<Fields>)
    ensures |r| <= |xs|
    ensures forall d :: d in r <==> JDict(d) in xs
  {
    if |xs| == 0 then []
    else
      var rest := DictElements(xs[1..]);
      assert forall x :: x in xs <==> x == xs[0] || x in xs[1..];
      (if xs[0].JDict? then [xs[0].fields] else []) + rest
  }

  /** The values of the present entries, in order: the effect of a loop that
      appends only when a condition holds. */
  function Somes<T>(xs: seq<Option<T>>): seq<T> {
    if |xs| == 0 then [] else (if xs[0].Some? then [xs[0].value] else []) + Somes(xs[1..])
  }

  /** Filtering keeps exactly the present values. */
  lemma {:induction false} SomesMembers<T>(xs: seq<Option<T>>)
    ensures |Somes(xs)| <= |xs|
    ensures forall x :: x in Somes(xs) <==> Some(x) in xs
  {
    if |xs| > 0 {
      SomesMembers(xs[1..]);
      assert forall o :: o in xs <==> o == xs[0] || o in xs[1..];
    }
  }

  /** Filtering a concatenation filters each part, keeping their order. */
  lemma {:induction false} SomesAppend<T>(a: seq<Option<T>>, b: seq<Option<T>>)
    ensures Somes(a + b) == Somes(a) + Somes(b)
  {
    if |a| > 0 {
      SomesAppend(a[1..], b);
      assert (a + b)[1..] == a[1..] + b;
    } else {
      assert a + b == b;
    }
  }

  function DictOf(x: Json): Option<Fields> {
    if x.JDict? then Some(x.fields) else None
  }

  /** The dict elements are exactly the list filtered by `isinstance(x, dict)`,
      in the list's order and with its repetitions. */
  lemma {:induction false} DictElementsFilter(xs: seq<Json>)
    ensures DictElements(xs) == Somes(seq(|xs|, i requires 0 <= i < |xs| => DictOf(xs[i])))
  {
    var o := seq(|xs|, i requires 0 <= i < |xs| => DictOf(xs[i]));
    if |xs| > 0 {
      DictElementsFilter(xs[1..]);
      assert o[1..] == seq(|xs[1..]|, i requires 0 <= i < |xs[1..]| => DictOf(xs[1..][i]));
    }
  }

  /** A one-element list contributes its element exactly when it is a dict,
      and a concatenation contributes the dicts of each part in order. */
  lemma DictElementsSingle(x: Json)
    ensures DictElements([x]) == if x.JDict? then [x.fields] else []
  {
    assert [x][1..] == [];
  }

  lemma {:induction false} DictElementsAppend(a: seq<Json>, b: seq<Json>)
    ensures DictElements(a + b) == DictElements(a) + DictElements(b)
  {
    if |a| > 0 {
      DictElementsAppend(a[1..], b);
      assert (a + b)[1..] == a[1..] + b;
    } else {
      assert a + b == b;
    }
  }

  /** Runs conversions in order: the first one that raises ends the loop with
      its error, otherwise all the results in order. */
  function Collect<T>(rs: seq<Result<T>>): (r: Result<seq<T>>)
    ensures r.Ok? <==> forall i :: 0 <= i < |rs| ==> rs[i].Ok?
    ensures r.Ok? ==> |r.value| == |rs| && forall i :: 0 <= i < |rs| ==> r.value[i] == rs[i].value
    ensures r.Raise? ==> exists i :: 0 <= i < |rs| && rs[i] == Raise(r.error) && forall j :: 0 <= j < i ==> rs[j].Ok?
  {
    if |rs| == 0 then Ok([])
    else
      match rs[0]
      case Raise(e) => Raise(e)
      case Ok(x) =>
        var rest := Collect(rs[1..]);
        assert forall i :: 0 < i < |rs| ==> rs[i] == rs[1..][i - 1];
        if rest.Raise? then
          var i :| 0 <= i < |rs[1..]| && rs[1..][i] == Raise(rest.error) && forall j :: 0 <= j < i ==> rs[1..][j].Ok?;
          assert rs[i + 1] == Raise(rest.error);
          rest
        else Ok([x] + rest.value)
  }

  /** The lists one after another: nested loops that append to one list. */
  function Flatten<T>(xss: seq<seq<T>>): seq<T> {
    if |xss| == 0 then [] else xss[0] + Flatten(xss[1..])
  }

  function TotalLength<T>(xss: seq<seq<T>>): nat {
    if |xss| == 0 then 0 else |xss[0]| + TotalLength(xss[1..])
  }

  lemma {:induction false} FlattenLength<T>(xss: seq<seq<T>>)
    ensures |Flatten(xss)| == TotalLength(xss)
  {
    if |xss| > 0 {
      FlattenLength(xss[1..]);
    }
  }

  /** Indexing past the first part of a concatenation reads the second. */
  lemma ConcatRight<T>(a: seq<T>, b: seq<T>, i: nat)
    requires |a| <= i < |a| + |b|
    ensures (a + b)[i] == b[i - |a|]
  {
  }

  /** Element `j` of list `k` sits after all the elements of the lists before
      it: the order of the outer loop, then of the inner one. */
  lemma {:induction false} FlattenIndex<T>(xss: seq<seq<T>>, k: nat, j: nat)
    requires k < |xss| && j < |xss[k]|
    ensures TotalLength(xss[..k]) + j < |Flatten(xss)|
    ensures Flatten(xss)[TotalLength(xss[..k]) + j] == xss[k][j]
  {
    FlattenLength(xss);
    if k == 0 {
      assert xss[..0] == [];
    } else {
      FlattenIndex(xss[1..], k - 1, j);
      assert xss[..k][1..] == xss[1..][..k - 1];
      assert TotalLength(xss[..k]) == |xss[0]| + TotalLength(xss[1..][..k - 1]);
    }
  }

  /** Runs list-producing steps in order and concatenates their lists; the
      first step that raises ends the loop with its error. */
  function FlatCollect<T>(rs: seq<Result<seq<T>>>): Result<seq<T>> {
    var xss :- Collect(rs);
    Ok(Flatten(xss))
  }

  lemma FlatCollectCons<T>(rs: seq<Result<seq<T>>>)
    requires |rs| > 0
    ensures rs[0].Raise? ==> FlatCollect(rs) == Raise(rs[0].error)
    ensures rs[0].Ok? && FlatCollect(rs[1..]).Raise? ==> FlatCollect(rs) == FlatCollect(rs[1..])
    ensures rs[0].Ok? && FlatCollect(rs[1..]).Ok? ==> FlatCollect(rs) == Ok(rs[0].value + FlatCollect(rs[1..]).value)
  {
    if rs[0].Ok? {
      var rest := Collect(rs[1..]);
      if rest.Ok? {
        assert Collect(rs).value == [rs[0].value] + rest.value;
        assert ([rs[0].value] + rest.value)[1..] == rest.value;
      }
    }
  }

  /** `f` applied to each input, in order. */
  function Each<A, B>(f: A -> B, xs: seq<A>): (r: seq<B>)
    ensures |r| == |xs| && forall i :: 0 <= i < |xs| ==> r[i] == f(xs[i])
  {
    seq(|xs|, i requires 0 <= i < |xs| => f(xs[i]))
  }

  /** The loop over the inputs with step `f`, unrolled once: the first
      input's step runs before the loop over the rest. */
  lemma FlatCollectEachCons<A, T>(f: A -> Result<seq<T>>, xs: seq<A>)
    requires |xs| > 0
    ensures f(xs[0]).Raise? ==> FlatCollect(Each(f, xs)) == Raise(f(xs[0]).error)
    ensures f(xs[0]).Ok? && FlatCollect(Each(f, xs[1..])).Raise? ==>
              FlatCollect(Each(f, xs)) == FlatCollect(Each(f, xs[1..]))
    ensures f(xs[0]).Ok? && FlatCollect(Each(f, xs[1..])).Ok? ==>
              FlatCollect(Each(f, xs)) == Ok(f(xs[0]).value + FlatCollect(Each(f, xs[1..])).value)
  {
    FlatCollectCons(Each(f, xs));
    assert Each(f, xs)[1..] == Each(f, xs[1..]);
  }

  /** A loop that finishes had no step raise. */
  lemma {:induction false} FlatCollectAllOk<T>(rs: seq<Result<seq<T>>>)
    requires FlatCollect(rs).Ok?
    ensures forall i :: 0 <= i < |rs| ==> rs[i].Ok?
  {
    if |rs| > 0 {
      FlatCollectCons(rs);
      FlatCollectAllOk(rs[1..]);
      assert forall i :: 1 <= i < |rs| ==> rs[i] == rs[1..][i - 1];
    }
  }

  /** The number of elements the steps that returned a list produced. */
  function OkTotal<T>(rs: seq<Result<seq<T>>>): nat {
    if |rs| == 0 then 0 else (if rs[0].Ok? then |rs[0].value| else 0) + OkTotal(rs[1..])
  }

  /** When no step raises, element `j` of step `k`'s list sits after every
      element the earlier steps produced. */
  lemma {:induction false} FlatCollectIndex<T>(rs: seq<Result<seq<T>>>, k: nat, j: nat)
    requires FlatCollect(rs).Ok? && k < |rs|
    ensures rs[k].Ok?
    ensures j < |rs[k].value| ==>
              && OkTotal(rs[..k]) + j < |FlatCollect(rs).value|
              && FlatCollect(rs).value[OkTotal(rs[..k]) + j] == rs[k].value[j]
  {
    FlatCollectCons(rs);
    var first := rs[0].value;
    var rest := FlatCollect(rs[1..]).value;
    if k == 0 {
      assert rs[..0] == [];
    } else {
      FlatCollectIndex(rs[1..], k - 1, j);
      assert rs[1..][k - 1] == rs[k];
      assert rs[..k][1..] == rs[1..][..k - 1];
      assert OkTotal(rs[..k]) == |first| + OkTotal(rs[1..][..k - 1]);
      if j < |rs[k].value| {
        ConcatRight(first, rest, OkTotal(rs[..k]) + j);
      }
    }
  }

  /** `row` holds every column of `meta` with its value: what `{**meta, ...}`
      keeps when no later key overrides it. */
  predicate Carries<K>(row: map<K, Json>, meta: map<K, Json>) {
    forall c :: c in meta ==> c in row && row[c] == meta[c]
  }

  /** Every row of a concatenation carries `meta` when every row of both parts does. */
  lemma CarriesAppend<K>(a: seq<map<K, Json>>, b: seq<map<K, Json>>, meta: map<K, Json>)
    requires forall i :: 0 <= i < |a| ==> Carries(a[i], meta)
    requires forall i :: 0 <= i < |b| ==> Carries(b[i], meta)
    ensures forall i :: 0 <= i < |a + b| ==> Carries((a + b)[i], meta)
  {
    forall i | 0 <= i < |a + b|
      ensures Carries((a + b)[i], meta)
    {
      if i >= |a| {
        assert (a + b)[i] == b[i - |a|];
      }
    }
  }
}
