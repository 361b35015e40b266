/** Python values and the few built-in operations on them that the bridge relies on:
    truthiness, `dict.get`, `float()`, `int()`, `len()`, `in`, `str.strip()`,
    `str.startswith` and `str.split(sep, 1)`.  A raised exception is an `Err`. */
module Py {

  datatype Option<T> = None | Some(value: T)

  /** The exception classes the modelled code can raise. */
  datatype PyError = TypeError | ValueError | KeyError | IndexError | AttributeError

  /** The value of a Python expression that either returns or raises. */
  datatype Result<T> = Ok(value: T) | Err(error: PyError) {
    predicate IsFailure() { Err? }
    function PropagateFailure<U>(): Result<U>
      requires Err?
    {
      Err(error)
    }
    function Extract(): T
      requires Ok?
    {
      value
    }
  }

  /** A JSON/YAML-shaped Python value.  Python floats are modelled as reals. */
  datatype Value =
    | Null
    | Bool(b: bool)
    | Int(i: int)
    | Float(r: real)
    | Str(s: string)
    | List(items: seq<Value>)
    | Dict(fields: map<string, Value>)

  type Dict = map<string, Value>

  /** Python truthiness (`bool(v)`). */
  predicate Truthy(v: Value) {
    match v
    case Null => false
    case Bool(b) => b
    case Int(i) => i != 0
    case Float(r) => r != 0.0
    case Str(s) => s != []
    case List(xs) => xs != []
    case Dict(m) => m != map[]
  }

  /** `d.get(k, default)` */
  function Get(d: Dict, k: string, default: Value): Value {
    if k in d then d[k] else default
  }

  /** `len(v)`; `None` stands for the TypeError of an object without a length. */
  function Len(v: Value): (n: Option<nat>)
    ensures n.Some? <==> (v.Str? || v.List? || v.Dict?)
    ensures n.Some? ==> (Truthy(v) <==> n.value > 0)
  {
    match v
    case Str(s) => Some(|s|)
    case List(xs) => Some(|xs|)
    case Dict(m) => Some(|m|)
    case _ => None
  }

  /** The string parsing done inside `float(s)` and `int(s)`; `None` means ValueError. */
  datatype Parsers = Parsers(parseInt: string -> Option<int>, parseFloat: string -> Option<real>)

  /** Truncation toward zero, as `int(x)` does for a float. */
  function Trunc(x: real): (n: int)
    ensures 0.0 <= x ==> n as real <= x < n as real + 1.0
    ensures x < 0.0 ==> n as real - 1.0 < x <= n as real
  {
    if 0.0 <= x then x.Floor else -((-x).Floor)
  }

  /** `float(v)` */
  function ToFloat(p: Parsers, v: Value): Result<real> {
    match v
    case Bool(b) => Ok(if b then 1.0 else 0.0)
    case Int(i) => Ok(i as real)
    case Float(r) => Ok(r)
    case Str(s) => (match p.parseFloat(s) case Some(r) => Ok(r) case None => Err(ValueError))
    case _ => Err(TypeError)
  }

  /** `int(v)` */
  function ToInt(p: Parsers, v: Value): Result<int> {
    match v
    case Bool(b) => Ok(if b then 1 else 0)
    case Int(i) => Ok(i)
    case Float(r) => Ok(Trunc(r))
    case Str(s) => (match p.parseInt(s) case Some(i) => Ok(i) case None => Err(ValueError))
    case _ => Err(TypeError)
  }

  /** How an f-string renders a value: a string as itself, anything else through `str()`. */
  function Format(pyStr: Value -> string, v: Value): string {
    if v.Str? then v.s else pyStr(v)
  }

  /** The right operand of `s += v` for a string `s`: only a string is accepted. */
  function StrOperand(v: Value): (r: Result<string>)
    ensures r.Ok? <==> v.Str?
    ensures r.Ok? ==> r.value == v.s
    ensures r.Err? ==> r.error == TypeError
  {
    if v.Str? then Ok(v.s) else Err(TypeError)
  }

  /** `pat` occurs in `s` at index `j`. */
  predicate OccursAt(s: string, pat: string, j: int) {
    0 <= j && j + |pat| <= |s| && s[j..j + |pat|] == pat
  }

  /** First index at which `pat` occurs in `s` (`str.find`). */
  function Find(s: string, pat: string): (r: Option<nat>)
    ensures r.Some? ==> OccursAt(s, pat, r.value)
    ensures r.Some? ==> forall j :: 0 <= j < r.value ==> !OccursAt(s, pat, j)
    ensures r.None? ==> forall j :: !OccursAt(s, pat, j)
    decreases |s|
  {
    if pat <= s then
      assert s[0..|pat|] == pat;
      Some(0)
    else if |s| <= |pat| then
      assert s[0..|s|] == s;
      None
    else
      assert forall j :: 1 <= j ==> (OccursAt(s, pat, j) <==> OccursAt(s[1..], pat, j - 1)) by {
        forall j | 1 <= j { OccursShift(s, pat, j); }
      }
      assert !OccursAt(s, pat, 0);
      match Find(s[1..], pat)
      case None => None
      case Some(i) => Some(i + 1)
  }

  lemma OccursShift(s: string, pat: string, j: int)
    requires s != [] && 1 <= j
    ensures OccursAt(s, pat, j) <==> OccursAt(s[1..], pat, j - 1)
  {
    if j + |pat| <= |s| {
      var a, b := s[j..j + |pat|], s[1..][j - 1..j - 1 + |pat|];
      assert |a| == |b| && forall i :: 0 <= i < |a| ==> a[i] == b[i];
      assert a == b;
    }
  }

  /** A one-character separator absent from `p` is first found right after `p`. */
  lemma {:induction false} FindAfterPrefix(p: string, c: char, rest: string)
    requires c !in p
    ensures Find(p + [c] + rest, [c]) == Some(|p|)
    decreases |p|
  {
    var s := p + [c] + rest;
    if p == [] {
      assert [c] <= s;
    } else {
      assert s[0] == p[0] != c;
      assert s[1..] == p[1..] + [c] + rest;
      FindAfterPrefix(p[1..], c, rest);
    }
  }

  /** `pat in s` for strings. */
  predicate IsSubstring(pat: string, s: string) {
    Find(s, pat).Some?
  }

  /** `key in container` for a string `key`. */
  function Contains(container: Value, key: string): Result<bool> {
    match container
    case Dict(m) => Ok(key in m)
    case List(xs) => Ok(Str(key) in xs)
    case Str(s) => Ok(IsSubstring(key, s))
    case _ => Err(TypeError)
  }

  /** `s.split(sep, 1)[1]`, or `None` for the IndexError when `sep` does not occur. */
  function AfterFirst(s: string, sep: string): (r: Option<string>)
    ensures r.Some? <==> Find(s, sep).Some?
    ensures r.Some? ==> r.value == s[Find(s, sep).value + |sep|..]
  {
    match Find(s, sep)
    case None => None
    case Some(i) => Some(s[i + |sep|..])
  }

  /** The characters for which Python's `str.isspace()` holds. */
  predicate IsSpace(c: char) {
    c == ' ' || c == '\t' || c == '\n' || c == '\r' || c == '\U{0B}' || c == '\U{0C}'
    || ('\U{1C}' <= c <= '\U{1F}') || c == '\U{85}' || c == '\U{A0}' || c == '\U{1680}'
    || ('\U{2000}' <= c <= '\U{200A}') || c == '\U{2028}' || c == '\U{2029}'
    || c == '\U{202F}' || c == '\U{205F}' || c == '\U{3000}'
  }

  /** `s.lstrip()` */
  function TrimLeft(s: string): (r: string)
    ensures |r| <= |s| && r == s[|s| - |r|..]
    ensures r != [] ==> !IsSpace(r[0])
    ensures forall k :: 0 <= k < |s| - |r| ==> IsSpace(s[k])
  {
    if s != [] && IsSpace(s[0]) then TrimLeft(s[1..]) else s
  }

  /** `s.rstrip()` */
  function TrimRight(s: string): (r: string)
    ensures |r| <= |s| && r == s[..|r|]
    ensures r != [] ==> !IsSpace(r[|r| - 1])
    ensures forall k :: |r| <= k < |s| ==> IsSpace(s[k])
  {
    if s != [] && IsSpace(s[|s| - 1]) then TrimRight(s[..|s| - 1]) else s
  }

  /** `r` is `s` with the white space before index `i` and after `i + |r|` removed. */
  predicate StrippedAt(s: string, r: string, i: int) {
    0 <= i <= |s| - |r| && r == s[i..i + |r|]
    && (forall k :: 0 <= k < i ==> IsSpace(s[k]))
    && (forall k :: i + |r| <= k < |s| ==> IsSpace(s[k]))
  }

  /** `s.strip()`: the infix of `s` left after dropping white space at both ends, and
      starting and ending with a character that is not white space. */
  function Strip(s: string): (r: string)
    ensures r != [] ==> !IsSpace(r[0]) && !IsSpace(r[|r| - 1])
    ensures exists i :: StrippedAt(s, r, i)
  {
    var l := TrimLeft(s);
    var r := TrimRight(l);
    assert StrippedAt(s, r, |s| - |l|);
    r
  }

  predicate AllSpace(s: string) {
    forall k :: 0 <= k < |s| ==> IsSpace(s[k])
  }

  lemma {:induction false} TrimLeftSpaces(pre: string, s: string)
    requires AllSpace(pre) && (s != [] ==> !IsSpace(s[0]))
    ensures TrimLeft(pre + s) == s
    decreases |pre|
  {
    if pre == [] {
      assert pre + s == s;
    } else {
      assert (pre + s)[1..] == pre[1..] + s;
      TrimLeftSpaces(pre[1..], s);
    }
  }

  lemma {:induction false} TrimRightSpaces(s: string, post: string)
    requires AllSpace(post) && (s != [] ==> !IsSpace(s[|s| - 1]))
    ensures TrimRight(s + post) == s
    decreases |post|
  {
    if post == [] {
      assert s + post == s;
    } else {
      assert (s + post)[..|s + post| - 1] == s + post[..|post| - 1];
      TrimRightSpaces(s, post[..|post| - 1]);
    }
  }

  /** `(pre + s + post).strip()` is `s` when `pre` and `post` are white space and `s`
      neither starts nor ends with it. */
  lemma StripFramed(pre: string, s: string, post: string)
    requires AllSpace(pre) && AllSpace(post)
    requires s != [] ==> !IsSpace(s[0]) && !IsSpace(s[|s| - 1])
    ensures Strip(pre + s + post) == s
  {
    assert pre + s + post == pre + (s + post);
    if s == [] {
      assert s + post == post;
      TrimLeftSpaces(pre + post, []);
      assert pre + post + [] == pre + s + post;
    } else {
      TrimLeftSpaces(pre, s + post);
    }
    TrimRightSpaces(s, post);
  }

  /** Stripping a string that has no white space at either end changes nothing. */
  lemma {:induction false} StripKeepsTrimmed(s: string)
    requires s != [] ==> !IsSpace(s[0]) && !IsSpace(s[|s| - 1])
    ensures Strip(s) == s
  {
  }
}
