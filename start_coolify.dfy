/** The placeholder substitution of the Coolify start script: `${NAME}` and
    `${NAME:-default}` inside string values are replaced from the process environment,
    and a YAML tree is walked so that every string leaf is substituted. */
module Coolify {
  import opened Py

  /** The process environment `os.environ`. */
  type Environ = map<string, string>

  /** `os.getenv(name, default)`: the value when the variable is set, even when empty. */
  function GetEnv(env: Environ, name: string, default: string): string {
    if name in env then env[name] else default
  }

  /** The callback `replace`: the text a placeholder `${expr}` becomes.  With `:-` in
      `expr`, the part before its first occurrence names the variable and the rest is the
      default; without it the default is `""`. */
  function Replace(expr: string, env: Environ): string {
    match Find(expr, ":-")
    case Some(i) => GetEnv(env, expr[..i], expr[i + 2..])
    case None => GetEnv(env, expr, "")
  }

  /** `s` starts with the two characters `${`. */
  predicate Opens(s: string) {
    2 <= |s| && s[0] == '$' && s[1] == '{'
  }

  /** `s[j]` is the first `}` after the opening `${`, with at least one character between. */
  predicate ClosesAt(s: string, j: int) {
    2 < j < |s| && s[j] == '}' && forall k :: 2 <= k < j ==> s[k] != '}'
  }

  /** Where the pattern `\$\{([^}]+)\}` matching at the start of `s` ends: the index of its
      closing `}`, or `None` when it does not match there. */
  function PlaceholderEnd(s: string): (r: Option<nat>)
    ensures r.Some? ==> Opens(s) && ClosesAt(s, r.value)
    ensures r.None? ==> !Opens(s) || forall j :: !ClosesAt(s, j)
  {
    if !Opens(s) then None
    else match Find(s[2..], "}")
      case None =>
        assert forall j :: ClosesAt(s, j) ==> OccursAt(s[2..], "}", j - 2);
        None
      case Some(k) =>
        assert s[2 + k] == s[2..][k..k + 1][0];
        assert forall m :: 2 <= m < 2 + k ==> s[m] != '}' by {
          forall m | 2 <= m < 2 + k ensures s[m] != '}' {
            assert !OccursAt(s[2..], "}", m - 2);
            assert s[2..][m - 2..m - 1] == [s[m]];
          }
        }
        if k == 0 then None else Some(2 + k)
  }

  /** `re.sub(pattern, replace, s)`: scanning from the left, each match is replaced and the
      scan resumes after it, so replacement text is never scanned again. */
  function SubstituteText(s: string, env: Environ): string
    decreases |s|
  {
    if s == [] then []
    else match PlaceholderEnd(s)
      case Some(j) => Replace(s[2..j], env) + SubstituteText(s[j + 1..], env)
      case None => [s[0]] + SubstituteText(s[1..], env)
  }

  /** `substitute_env_vars`: strings are substituted, every other value is returned as is. */
  function SubstituteEnvVars(v: Value, env: Environ): (r: Value)
    ensures r.Str? <==> v.Str?
    ensures !v.Str? ==> r == v
  {
    if v.Str? then Str(SubstituteText(v.s, env)) else v
  }

  /** `process_yaml_value`: dicts and lists are rebuilt from their processed children,
      anything else goes through `substitute_env_vars`. */
  function ProcessYamlValue(v: Value, env: Environ): Value {
    match v
    case Dict(m) => Dict(map k | k in m :: ProcessYamlValue(m[k], env))
    case List(xs) => List(seq(|xs|, i requires 0 <= i < |xs| => ProcessYamlValue(xs[i], env)))
    case _ => SubstituteEnvVars(v, env)
  }

  // ---------------------------------------------------------------- the callback

  /** The first occurrence of `pat` in `s` is at `i` when `pat` occurs there and nowhere
      before. */
  lemma FindFirst(s: string, pat: string, i: nat)
    requires OccursAt(s, pat, i) && forall j :: 0 <= j < i ==> !OccursAt(s, pat, j)
    ensures Find(s, pat) == Some(i)
  {
  }

  /** A name without `:-` followed by `:-` has its separator first found right after it. */
  lemma SeparatorAfterName(name: string, default: string)
    requires !IsSubstring(":-", name)
    ensures Find(name + ":-" + default, ":-") == Some(|name|)
  {
    var s := name + ":-" + default;
    assert s[|name|..|name| + 2] == ":-";
    forall j | 0 <= j < |name| ensures !OccursAt(s, ":-", j) {
      if j + 2 <= |name| {
        assert s[j..j + 2] == name[j..j + 2];
        assert !OccursAt(name, ":-", j);
      } else {
        assert s[j + 1] == ':';
      }
    }
    FindFirst(s, ":-", |name|);
  }

  /** `${NAME:-default}` with NAME unset gives the default, whatever it contains (a
      further `:-` included). */
  lemma DefaultWhenUnset(name: string, default: string, env: Environ)
    requires !IsSubstring(":-", name) && name !in env
    ensures Replace(name + ":-" + default, env) == default
  {
    SeparatorAfterName(name, default);
    var s := name + ":-" + default;
    assert s[..|name|] == name && s[|name| + 2..] == default;
  }

  /** `${NAME:-default}` with NAME set gives its value, the empty string included. */
  lemma ValueWhenSet(name: string, default: string, env: Environ)
    requires !IsSubstring(":-", name) && name in env
    ensures Replace(name + ":-" + default, env) == env[name]
  {
    SeparatorAfterName(name, default);
    var s := name + ":-" + default;
    assert s[..|name|] == name;
  }

  /** `${NAME}` gives the value of NAME, or `""` when it is unset. */
  lemma PlainName(name: string, env: Environ)
    requires !IsSubstring(":-", name)
    ensures Replace(name, env) == (if name in env then env[name] else "")
  {
  }

  // ---------------------------------------------------------------- the scan

  /** Text without `$` is copied unchanged, and the scan continues after it. */
  lemma {:induction false} LiteralPrefix(p: string, s: string, env: Environ)
    requires '$' !in p
    ensures SubstituteText(p + s, env) == p + SubstituteText(s, env)
    decreases |p|
  {
    if p != [] {
      var t := p + s;
      assert t[0] == p[0] && !Opens(t);
      assert t[1..] == p[1..] + s;
      LiteralPrefix(p[1..], s, env);
      assert p == [p[0]] + p[1..];
    } else {
      assert p + s == s;
    }
  }

  /** A placeholder `${name}` is replaced by `Replace(name)` verbatim and the rest of the
      text is scanned after it. */
  lemma PlaceholderReplaced(name: string, rest: string, env: Environ)
    requires name != [] && '}' !in name
    ensures SubstituteText("${" + name + "}" + rest, env) == Replace(name, env) + SubstituteText(rest, env)
  {
    var s := "${" + name + "}" + rest;
    assert s[2..] == name + ['}'] + rest;
    FindAfterPrefix(name, '}', rest);
    assert PlaceholderEnd(s) == Some(2 + |name|);
    assert s[2..2 + |name|] == name;
    assert s[2 + |name| + 1..] == rest;
  }

  /** Replacement text is not scanned again: a variable whose value is itself a
      placeholder leaves that placeholder in the output. */
  lemma NotRescanned(name: string, other: string, env: Environ)
    requires name != [] && '}' !in name && !IsSubstring(":-", name)
    requires name in env && env[name] == "${" + other + "}"
    ensures SubstituteText("${" + name + "}", env) == "${" + other + "}"
  {
    PlaceholderReplaced(name, "", env);
    assert "${" + name + "}" + "" == "${" + name + "}";
  }

  /** `${}` has an empty name, so it is not a placeholder and stays in the text. */
  lemma EmptyNameKept(rest: string, env: Environ)
    ensures SubstituteText("${}" + rest, env) == "${}" + SubstituteText(rest, env)
  {
    var s := "${}" + rest;
    assert s[2..] == "}" + rest && OccursAt(s[2..], "}", 0);
    assert PlaceholderEnd(s).None?;
    assert s[1..] == "{}" + rest;
    LiteralPrefix("{}", rest, env);
  }

  /** No position of `s` starts a placeholder. */
  predicate NoPlaceholder(s: string) {
    forall i :: 0 <= i < |s| ==> PlaceholderEnd(s[i..]).None?
  }

  /** Text in which no placeholder matches is returned unchanged. */
  lemma {:induction false} PlainTextKept(s: string, env: Environ)
    requires NoPlaceholder(s)
    ensures SubstituteText(s, env) == s
    decreases |s|
  {
    if s != [] {
      assert s[0..] == s;
      forall i | 0 <= i < |s[1..]| ensures PlaceholderEnd(s[1..][i..]).None? {
        assert s[1..][i..] == s[i + 1..];
      }
      PlainTextKept(s[1..], env);
      assert s == [s[0]] + s[1..];
    }
  }

  /** Text without any `}` has no placeholder to match, an unclosed `${` included. */
  lemma UnclosedKept(s: string, env: Environ)
    requires '}' !in s
    ensures SubstituteText(s, env) == s
  {
    forall i | 0 <= i < |s| ensures PlaceholderEnd(s[i..]).None? {
      ClosingBraceIn(s, i);
    }
    PlainTextKept(s, env);
  }

  /** A placeholder starting at `s[i]` has its closing `}` inside `s`. */
  lemma ClosingBraceIn(s: string, i: nat)
    requires i < |s|
    ensures PlaceholderEnd(s[i..]).Some? ==> '}' in s
  {
    if PlaceholderEnd(s[i..]).Some? {
      var j := PlaceholderEnd(s[i..]).value;
      assert s[i..][j] == s[i + j];
    }
  }

  // ---------------------------------------------------------------- the tree walk

  /** `w` is `v` walked: the same dict keys, the same list lengths and order, every string
      leaf replaced by its substituted text and every other leaf kept as it is. */
  predicate LeavesSubstituted(v: Value, w: Value, env: Environ) {
    match v
    case Dict(m) =>
      w.Dict? && w.fields.Keys == m.Keys
      && forall k :: k in m ==> LeavesSubstituted(m[k], w.fields[k], env)
    case List(xs) =>
      w.List? && |w.items| == |xs|
      && forall i :: 0 <= i < |xs| ==> LeavesSubstituted(xs[i], w.items[i], env)
    case Str(s) => w == Str(SubstituteText(s, env))
    case _ => w == v
  }

  /** `process_yaml_value` keeps dict keys, list lengths and order, substitutes every
      string leaf and keeps every other leaf. */
  lemma {:induction false} EveryLeafSubstituted(v: Value, env: Environ)
    ensures LeavesSubstituted(v, ProcessYamlValue(v, env), env)
  {
    match v
    case Dict(m) =>
      forall k | k in m ensures LeavesSubstituted(m[k], ProcessYamlValue(v, env).fields[k], env) {
        EveryLeafSubstituted(m[k], env);
      }
    case List(xs) =>
      forall i | 0 <= i < |xs| ensures LeavesSubstituted(xs[i], ProcessYamlValue(v, env).items[i], env) {
        EveryLeafSubstituted(xs[i], env);
      }
    case _ =>
  }

  /** Every string leaf of `v` is free of placeholders. */
  predicate PlainLeaves(v: Value) {
    match v
    case Dict(m) => forall k :: k in m ==> PlainLeaves(m[k])
    case List(xs) => forall i :: 0 <= i < |xs| ==> PlainLeaves(xs[i])
    case Str(s) => NoPlaceholder(s)
    case _ => true
  }

  /** A tree without placeholders comes back unchanged. */
  lemma {:induction false} PlainTreeKept(v: Value, env: Environ)
    requires PlainLeaves(v)
    ensures ProcessYamlValue(v, env) == v
  {
    match v
    case Dict(m) =>
      forall k | k in m ensures ProcessYamlValue(m[k], env) == m[k] {
        PlainTreeKept(m[k], env);
      }
      assert ProcessYamlValue(v, env).fields == m;
    case List(xs) =>
      forall i | 0 <= i < |xs| ensures ProcessYamlValue(xs[i], env) == xs[i] {
        PlainTreeKept(xs[i], env);
      }
      assert ProcessYamlValue(v, env).items == xs;
    case Str(s) =>
      PlainTextKept(s, env);
    case _ =>
  }
}
