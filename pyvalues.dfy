/** The slice of Python's value model that the synchronizer's decisions depend on:
    decoded JSON values, truthiness, `dict.get`, `str()` of scalars, the `in`
    operator on a right operand of unknown type, `str.strip()` and slicing. */
module PyValues {

  datatype Option<+T> = None | Some(value: T)

  datatype Result<+T, +E> = Ok(value: T) | Err(error: E)

  /** A value decoded from JSON (Python's None, bool, int, str, list, dict).
      JSON floats are not part of this model. */
  datatype Json =
    | JNull
    | JBool(b: bool)
    | JNum(n: int)
    | JStr(s: string)
    | JArr(items: seq<Json>)
    | JObj(fields: map<string, Json>)

  /** A JSON value that is not a container. */
  type Scalar = j: Json | !j.JArr? && !j.JObj? witness JNull

  /** Python's `type(v).__name__`. */
  function TypeName(j: Json): string
  {
    match j
    case JNull => "NoneType"
    case JBool(_) => "bool"
    case JNum(_) => "int"
    case JStr(_) => "str"
    case JArr(_) => "list"
    case JObj(_) => "dict"
  }

  /** Python's `bool(v)`: None, False, 0, "", [] and {} are false. */
  predicate Truthy(j: Json)
  {
    match j
    case JNull => false
    case JBool(b) => b
    case JNum(n) => n != 0
    case JStr(s) => s != ""
    case JArr(items) => items != []
    case JObj(fields) => fields != map[]
  }

  /** Python's `d.get(k, default)`. */
  function GetOr<V>(d: map<string, V>, k: string, default: V): (r: V)
    ensures k in d ==> r == d[k]
    ensures k !in d ==> r == default
  {
    if k in d then d[k] else default
  }

  /** Python's `d.get(k)`: a missing key reads as None. */
  function Get(d: map<string, Json>, k: string): (r: Json)
    ensures k !in d ==> r == JNull
  {
    GetOr(d, k, JNull)
  }

  function DigitChar(d: nat): char
    requires d < 10
  {
    "0123456789"[d]
  }

  function NatToString(n: nat): string
    decreases n
  {
    if n < 10 then [DigitChar(n)] else NatToString(n / 10) + [DigitChar(n % 10)]
  }

  /** Python's `str(v)` on a scalar, as an f-string renders it. */
  function Str(j: Scalar): string
  {
    match j
    case JNull => "None"
    case JBool(b) => if b then "True" else "False"
    case JNum(n) => if n < 0 then "-" + NatToString(-n) else NatToString(n)
    case JStr(s) => s
  }

  predicate OccursAt(needle: string, hay: string, i: nat)
  {
    i + |needle| <= |hay| && hay[i..i + |needle|] == needle
  }

  predicate IsSubstring(needle: string, hay: string)
  {
    exists i: nat | i <= |hay| :: OccursAt(needle, hay, i)
  }

  /** Python's `needle in container` for a string `needle`: a substring test on a str,
      membership on a list, a key test on a dict, and a TypeError (carrying the type
      name of the right operand) on anything that is not iterable. */
  function In(needle: string, container: Json): (r: Result<bool, string>)
    ensures r.Err? <==> (container.JNull? || container.JBool? || container.JNum?)
    ensures r.Err? ==> r.error == TypeName(container)
    ensures container.JStr? ==> r == Ok(IsSubstring(needle, container.s))
    ensures container.JArr? ==> r == Ok(JStr(needle) in container.items)
    ensures container.JObj? ==> r == Ok(needle in container.fields)
  {
    match container
    case JStr(s) => Ok(IsSubstring(needle, s))
    case JArr(items) => Ok(JStr(needle) in items)
    case JObj(fields) => Ok(needle in fields)
    case _ => Err(TypeName(container))
  }

  /** Python's `str.isspace()` on one character. */
  predicate IsSpace(c: char)
  {
    ('\U{9}' <= c <= '\U{D}') || ('\U{1C}' <= c <= '\U{20}') || c == '\U{85}' || c == '\U{A0}'
    || c == '\U{1680}' || ('\U{2000}' <= c <= '\U{200A}') || c == '\U{2028}' || c == '\U{2029}'
    || c == '\U{202F}' || c == '\U{205F}' || c == '\U{3000}'
  }

  predicate AllSpace(s: string)
  {
    forall k :: 0 <= k < |s| ==> IsSpace(s[k])
  }

  /** `s.lstrip()`: the suffix of `s` that follows its leading whitespace. */
  function TrimStart(s: string): (r: string)
    ensures |r| <= |s| && r == s[|s| - |r|..]
    ensures forall k :: 0 <= k < |s| - |r| ==> IsSpace(s[k])
    ensures r == [] || !IsSpace(r[0])
  {
    if s != [] && IsSpace(s[0]) then
      var r := TrimStart(s[1..]);
      assert s[|s| - |r|..] == s[1..][|s[1..]| - |r|..];
      assert forall k :: 1 <= k < |s| ==> s[k] == s[1..][k - 1];
      r
    else s
  }

  /** `s.rstrip()`: the prefix of `s` that precedes its trailing whitespace. */
  function TrimEnd(s: string): (r: string)
    ensures |r| <= |s| && r == s[..|r|]
    ensures forall k :: |r| <= k < |s| ==> IsSpace(s[k])
    ensures r == [] || !IsSpace(r[|r| - 1])
  {
    if s != [] && IsSpace(s[|s| - 1]) then
      var r := TrimEnd(s[..|s| - 1]);
      assert s[..|s| - 1][..|r|] == s[..|r|];
      assert forall k :: 0 <= k < |s| - 1 ==> s[k] == s[..|s| - 1][k];
      r
    else s
  }

  /** `s` is `r` with whitespace only before it (the first `i` characters) and only
      after it. */
  predicate PaddedAt(s: string, r: string, i: nat)
  {
    && i + |r| <= |s| && s[i..i + |r|] == r
    && (forall k :: 0 <= k < i ==> IsSpace(s[k]))
    && (forall k :: i + |r| <= k < |s| ==> IsSpace(s[k]))
  }

  /** `s.strip()`. */
  function Strip(s: string): (r: string)
    ensures r == [] || (!IsSpace(r[0]) && !IsSpace(r[|r| - 1]))
    ensures r == [] <==> AllSpace(s)
    ensures (s == [] || (!IsSpace(s[0]) && !IsSpace(s[|s| - 1]))) ==> r == s
    ensures IsSubstring(r, s)
  {
    var t := TrimStart(s);
    var r := TrimEnd(t);
    StripEnds(t, r);
    StripInside(s, t, r);
    StripUntouched(s, t, r);
    StripBlank(s, t, r);
    r
  }

  lemma StripBlank(s: string, t: string, r: string)
    requires t == TrimStart(s) && r == TrimEnd(t)
    ensures r == [] <==> AllSpace(s)
  {
    if r == [] {
      BlankWhenTrimmedAway(s, t);
    } else {
      NonBlankWhenKept(s, t, r);
    }
  }

  /** A string with no whitespace at either end is its own strip. */
  lemma StripUnpadded(s: string)
    requires s != [] && !IsSpace(s[0]) && !IsSpace(s[|s| - 1])
    ensures Strip(s) == s
  {
  }

  /** `s.strip()` removes exactly the leading and the trailing whitespace of `s`. */
  lemma StripRemovesPadding(s: string)
    ensures exists i: nat :: PaddedAt(s, Strip(s), i)
  {
    StripExact(s, TrimStart(s), Strip(s));
  }

  lemma StripInside(s: string, t: string, r: string)
    requires |t| <= |s| && t == s[|s| - |t|..] && |r| <= |t| && r == t[..|r|]
    ensures IsSubstring(r, s)
  {
    var i := |s| - |t|;
    assert s[i..i + |r|] == t[..|r|];
    assert OccursAt(r, s, i);
  }

  /** What strip removes is exactly a run of leading and a run of trailing whitespace. */
  lemma StripExact(s: string, t: string, r: string)
    requires |t| <= |s| && t == s[|s| - |t|..] && forall k :: 0 <= k < |s| - |t| ==> IsSpace(s[k])
    requires |r| <= |t| && r == t[..|r|] && forall k :: |r| <= k < |t| ==> IsSpace(t[k])
    ensures PaddedAt(s, r, |s| - |t|)
  {
    var i := |s| - |t|;
    assert s[i..i + |r|] == t[..|r|];
    forall k | i + |r| <= k < |s|
      ensures IsSpace(s[k])
    {
      assert s[k] == t[k - i];
    }
  }

  /** Neither end of the strip is whitespace. */
  lemma StripEnds(t: string, r: string)
    requires t == [] || !IsSpace(t[0])
    requires |r| <= |t| && r == t[..|r|] && (r == [] || !IsSpace(r[|r| - 1]))
    ensures r == [] || (!IsSpace(r[0]) && !IsSpace(r[|r| - 1]))
  {
    if r != [] {
      assert r[0] == t[0];
    }
  }

  lemma StripUntouched(s: string, t: string, r: string)
    requires t == TrimStart(s) && r == TrimEnd(t)
    ensures (s == [] || (!IsSpace(s[0]) && !IsSpace(s[|s| - 1]))) ==> r == s
  {
    if s != [] && !IsSpace(s[0]) && !IsSpace(s[|s| - 1]) {
      assert t == s[0..] == s;
      assert r == t[..|t|] == t;
    } else if s == [] {
      assert |r| <= |t| <= 0;
    }
  }

  lemma NonBlankWhenKept(s: string, t: string, r: string)
    requires t == TrimStart(s) && r == TrimEnd(t) && r != []
    ensures !AllSpace(s)
  {
    var i := |s| - |t|;
    assert s[i] == t[0];
    assert r[0] == t[0];
  }

  lemma BlankWhenTrimmedAway(s: string, t: string)
    requires t == TrimStart(s) && TrimEnd(t) == []
    ensures AllSpace(s)
  {
    assert t == [];
  }

  /** Python's `s[:n]` for `n >= 0`. */
  function Take<T>(s: seq<T>, n: nat): (r: seq<T>)
    ensures |r| <= |s| && |r| <= n && r == s[..|r|]
    ensures |r| == if |s| <= n then |s| else n
  {
    if |s| <= n then s else s[..n]
  }

  /** Python's `s[:n]` for any int `n`: a negative bound counts from the end. */
  function SliceTo<T>(s: seq<T>, n: int): (r: seq<T>)
    ensures |r| <= |s| && r == s[..|r|]
    ensures n >= 0 ==> |r| == if |s| <= n then |s| else n
    ensures n < 0 ==> |r| == if |s| + n <= 0 then 0 else |s| + n
  {
    if n >= 0 then Take(s, n) else if |s| + n <= 0 then [] else s[..|s| + n]
  }
}
