/**
 * Configuration handling (dcx/config.py): locating the nearest `.context`
 * file, and substituting `${NAME}` placeholders from the environment
 * throughout the parsed configuration tree.
 */
module Config {
  import opened Wrappers
  import opened Paths

  /** The parsed YAML tree, as `yaml.safe_load` produces it. */
  datatype Value =
    | Null
    | Bool(b: bool)
    | Int(i: int)
    | Str(s: string)
    | List(items: seq<Value>)
    | Dict(fields: map<string, Value>)

  // ---- placeholders ----

  /** `pat` occurs in `s` at index `i`. */
  predicate OccursAt(s: string, pat: string, i: nat)
  {
    i + |pat| <= |s| && s[i..i + |pat|] == pat
  }

  /** `s.find(pat, from)`: the first index at or after `from` where `pat` occurs, or -1. */
  function Find(s: string, pat: string, from: nat): (r: int)
    ensures r == -1 || (from <= r && OccursAt(s, pat, r))
    ensures forall i :: from <= i && (r == -1 || i < r) ==> !OccursAt(s, pat, i)
    decreases |s| - from
  {
    if from + |pat| > |s| then -1
    else if s[from..from + |pat|] == pat then from
    else Find(s, pat, from + 1)
  }

  /** `os.environ.get(name, "")`. */
  function Getenv(env: map<string, string>, name: string): string
  {
    if name in env then env[name] else ""
  }

  /**
   * The placeholder `_expand_env_vars` substitutes in `s`: the first `${`,
   * and the first `}` after it. None when there is no such pair.
   */
  function Placeholder(s: string): (r: Option<(nat, nat)>)
    ensures r.Some? ==>
      var (start, end) := r.value;
      && start + 2 <= end < |s|
      && OccursAt(s, "${", start) && s[end] == '}'
      && (forall i :: 0 <= i < start ==> !OccursAt(s, "${", i))
      && (forall i :: start <= i < end ==> s[i] != '}')
    ensures r.None? ==>
      forall i, j :: 0 <= i <= j < |s| && OccursAt(s, "${", i) ==> s[j] != '}'
  {
    var start := Find(s, "${", 0);
    if start < 0 then None
    else if Find(s, "}", 0) < 0 then
      (NoCloseAfter(s, 0); None)
    else
      var end := Find(s, "}", start);
      OpenerChars(s, start);
      if end > start then
        assert s[end..end + 1] == "}";
        NoCloseBetween(s, start, end);
        Some((start, end))
      else
        NoCloseAfter(s, start);
        None
  }

  /** An occurrence of `${` is a `$` followed by a `{`. */
  lemma OpenerChars(s: string, start: nat)
    requires OccursAt(s, "${", start)
    ensures start + 2 <= |s| && s[start] == '$' && s[start + 1] == '{'
  {
    var w := s[start..start + 2];
    assert w == "${";
    assert w[0] == s[start] && w[1] == s[start + 1];
  }

  lemma NoCloseBetween(s: string, from: nat, end: nat)
    requires from <= end <= |s|
    requires forall i :: from <= i < end ==> !OccursAt(s, "}", i)
    ensures forall i :: from <= i < end ==> s[i] != '}'
  {
    forall i | from <= i < end ensures s[i] != '}' {
      assert !OccursAt(s, "}", i);
      assert s[i..i + 1] == [s[i]];
    }
  }

  lemma NoCloseAfter(s: string, from: nat)
    requires Find(s, "}", from) == -1
    ensures forall j :: from <= j < |s| ==> s[j] != '}'
  {
    forall j | from <= j < |s| ensures s[j] != '}' {
      assert !OccursAt(s, "}", j);
      assert s[j..j + 1] == [s[j]];
    }
  }

  /** `_expand_env_vars` on a string: substitute the first placeholder, keep the rest verbatim. */
  function ExpandString(s: string, env: map<string, string>): (r: string)
    ensures Placeholder(s).None? ==> r == s
    ensures Placeholder(s).Some? ==>
      var (start, end) := Placeholder(s).value;
      r == s[..start] + Getenv(env, s[start + 2..end]) + s[end + 1..]
  {
    match Placeholder(s)
    case None => s
    case Some((start, end)) => s[..start] + Getenv(env, s[start + 2..end]) + s[end + 1..]
  }

  /**
   * `_expand_env_vars`: a string has its placeholder substituted, dictionaries
   * and lists are rebuilt with every entry expanded in turn, and any other
   * value is returned as it is.
   */
  function ExpandEnvVars(v: Value, env: map<string, string>): (r: Value)
    ensures v.Dict? <==> r.Dict?
    ensures v.List? <==> r.List?
    ensures v.Str? <==> r.Str?
    ensures !v.Dict? && !v.List? && !v.Str? ==> r == v
    ensures v.Str? ==> r.s == ExpandString(v.s, env)
    ensures v.Dict? ==> r.fields.Keys == v.fields.Keys
    ensures v.Dict? ==> forall k :: k in v.fields ==> r.fields[k] == ExpandEnvVars(v.fields[k], env)
    ensures v.List? ==> |r.items| == |v.items|
    ensures v.List? ==> forall i :: 0 <= i < |v.items| ==> r.items[i] == ExpandEnvVars(v.items[i], env)
  {
    match v
    case Dict(fields) => Dict(map k | k in fields :: ExpandEnvVars(fields[k], env))
    case List(items) => List(seq(|items|, i requires 0 <= i < |items| => ExpandEnvVars(items[i], env)))
    case Str(s) => Str(ExpandString(s, env))
    case _ => v
  }

  /** Both trees have the same dictionary keys, list lengths and string positions. */
  ghost predicate SameShape(a: Value, b: Value)
  {
    match a
    case Dict(fa) => b.Dict? && fa.Keys == b.fields.Keys && forall k :: k in fa ==> SameShape(fa[k], b.fields[k])
    case List(ia) => b.List? && |ia| == |b.items| && forall i :: 0 <= i < |ia| ==> SameShape(ia[i], b.items[i])
    case Str(_) => b.Str?
    case _ => a == b
  }

  /** Expansion keeps every key of every dictionary and the length of every list. */
  lemma {:induction false} ExpandPreservesShape(v: Value, env: map<string, string>)
    ensures SameShape(v, ExpandEnvVars(v, env))
  {
    match v
    case Dict(fields) =>
      forall k | k in fields ensures SameShape(fields[k], ExpandEnvVars(v, env).fields[k]) {
        ExpandPreservesShape(fields[k], env);
      }
    case List(items) =>
      forall i | 0 <= i < |items| ensures SameShape(items[i], ExpandEnvVars(v, env).items[i]) {
        ExpandPreservesShape(items[i], env);
      }
    case _ =>
  }

  /** No string anywhere in the tree holds a `${` with a `}` after it. */
  ghost predicate NoPlaceholders(v: Value)
  {
    match v
    case Dict(fields) => forall k :: k in fields ==> NoPlaceholders(fields[k])
    case List(items) => forall i :: 0 <= i < |items| ==> NoPlaceholders(items[i])
    case Str(s) => Placeholder(s).None?
    case _ => true
  }

  /** A tree without placeholders is returned unchanged. */
  lemma {:induction false} ExpandWithoutPlaceholders(v: Value, env: map<string, string>)
    requires NoPlaceholders(v)
    ensures ExpandEnvVars(v, env) == v
  {
    match v
    case Dict(fields) =>
      forall k | k in fields ensures ExpandEnvVars(fields[k], env) == fields[k] {
        ExpandWithoutPlaceholders(fields[k], env);
      }
    case List(items) =>
      forall i | 0 <= i < |items| ensures ExpandEnvVars(items[i], env) == items[i] {
        ExpandWithoutPlaceholders(items[i], env);
      }
    case _ =>
  }

  /** Only the first placeholder is substituted: whatever follows its `}` is kept literally. */
  lemma ExpandKeepsLaterPlaceholders(s: string, env: map<string, string>)
    requires Placeholder(s).Some?
    ensures var (start, end) := Placeholder(s).value;
      var r := ExpandString(s, env);
      r[..start] == s[..start] && r[|r| - (|s| - end - 1)..] == s[end + 1..]
  {
  }

  /**
   * A string `pre + "${" + name + "}" + post` whose prefix holds no `$` and whose
   * name holds no `}` has the value of `name` substituted, the rest kept verbatim.
   */
  lemma ExpandSingle(pre: string, name: string, post: string, env: map<string, string>)
    requires '$' !in pre && '}' !in name
    ensures ExpandString(pre + "${" + name + "}" + post, env) == pre + Getenv(env, name) + post
  {
    var s := pre + "${" + name + "}" + post;
    var start, end := |pre|, |pre| + 2 + |name|;
    assert s[start..start + 2] == "${";
    forall i | 0 <= i < start ensures !OccursAt(s, "${", i) {
      assert s[i] == pre[i];
    }
    forall i | start <= i < end ensures s[i] != '}' {
      if i >= start + 2 { assert s[i] == name[i - start - 2]; }
    }
    PlaceholderAt(s, start, end);
    assert s[..start] == pre;
    assert s[start + 2..end] == name;
    assert s[end + 1..] == post;
  }

  /** The substitution documented for `_expand_env_vars`. */
  lemma ExpandExample()
    ensures ExpandString("prefix_" + "${" + "TEST_VAR" + "}" + "_suffix", map["TEST_VAR" := "test_value"])
      == "prefix_test_value_suffix"
  {
    ExampleTexts();
    ExpandSingle("prefix_", "TEST_VAR", "_suffix", map["TEST_VAR" := "test_value"]);
  }

  /** A string without `$` holds no placeholder, so expansion leaves it alone. */
  lemma ExpandWithoutDollar(s: string, env: map<string, string>)
    requires '$' !in s
    ensures ExpandString(s, env) == s
  {
    forall i | 0 <= i < |s| ensures !OccursAt(s, "${", i) {
      DollarAt(s, i);
    }
  }

  /** An occurrence of `${` starts with a `$`. */
  lemma DollarAt(s: string, i: nat)
    ensures OccursAt(s, "${", i) ==> s[i] == '$'
  {
    if OccursAt(s, "${", i) {
      OpenerChars(s, i);
    }
  }

  /** The environment of the `_expand_env_vars` tests. */
  const TestEnv: map<string, string> := map["TEST_VAR" := "test_value"]

  /** The dictionary of the `_expand_env_vars` test: top-level and nested strings are both expanded. */
  lemma ExpandDictExample()
    ensures var env := TestEnv;
      var r := ExpandEnvVars(Dict(map[
        "key1" := Str("value1"),
        "key2" := Str("${TEST_VAR}"),
        "nested" := Dict(map["key3" := Str("prefix_${TEST_VAR}")])]), env);
      && r.fields["key1"] == Str("value1")
      && r.fields["key2"] == Str("test_value")
      && r.fields["nested"].fields["key3"] == Str("prefix_test_value")
  {
    var env := TestEnv;
    var fields := map[
      "key1" := Str("value1"),
      "key2" := Str("${TEST_VAR}"),
      "nested" := Dict(map["key3" := Str("prefix_${TEST_VAR}")])];
    DistinctKeys();
    assert fields["key1"] == Str("value1");
    assert fields["key2"] == Str("${TEST_VAR}");
    assert fields["nested"] == Dict(map["key3" := Str("prefix_${TEST_VAR}")]);
    ExampleExpansions();
  }

  /** The list of the `_expand_env_vars` test: items and items of a nested list are both expanded. */
  lemma ExpandListExample()
    ensures var env := TestEnv;
      var r := ExpandEnvVars(List([Str("value1"), Str("${TEST_VAR}"), List([Str("nested_${TEST_VAR}")])]), env);
      && r.items[0] == Str("value1")
      && r.items[1] == Str("test_value")
      && r.items[2].items[0] == Str("nested_test_value")
  {
    var env := TestEnv;
    var inner := [Str("nested_${TEST_VAR}")];
    var items := [Str("value1"), Str("${TEST_VAR}"), List(inner)];
    ExampleExpansions();
    assert ExpandEnvVars(List(inner), env).items[0] == Str("nested_test_value");
    assert ExpandEnvVars(List(items), env).items[2] == ExpandEnvVars(List(inner), env);
  }

  lemma DistinctKeys()
    ensures "key1" != "key2" && "key1" != "nested" && "key2" != "nested"
  {
    assert "key1"[3] != "key2"[3];
  }

  /** The four strings of the nested examples, one by one. */
  lemma ExampleExpansions()
    ensures ExpandString("value1", TestEnv) == "value1"
    ensures ExpandString("${TEST_VAR}", TestEnv) == "test_value"
    ensures ExpandString("prefix_${TEST_VAR}", TestEnv) == "prefix_test_value"
    ensures ExpandString("nested_${TEST_VAR}", TestEnv) == "nested_test_value"
  {
    ExampleUnchanged();
    ExampleWhole();
    ExamplePrefix();
    ExampleNested();
  }

  lemma ExampleUnchanged()
    ensures ExpandString("value1", TestEnv) == "value1"
  {
    ExpandWithoutDollar("value1", TestEnv);
  }

  lemma ExampleWhole()
    ensures ExpandString("${TEST_VAR}", TestEnv) == "test_value"
  {
    var v := "${TEST_VAR}";
    var x := "test_value";
    assert "" + v == v && "" + x == x;
    ExpandInstance("", x, v);
  }

  lemma ExamplePrefix()
    ensures ExpandString("prefix_${TEST_VAR}", TestEnv) == "prefix_test_value"
  {
    ExpandPrefixed("prefix_", "prefix_test_value", "prefix_${TEST_VAR}");
  }

  lemma ExampleNested()
    ensures ExpandString("nested_${TEST_VAR}", TestEnv) == "nested_test_value"
  {
    ExpandPrefixed("nested_", "nested_test_value", "nested_${TEST_VAR}");
  }

  /** The two prefixed strings of the nested examples. */
  lemma ExpandPrefixed(pre: string, expanded: string, s: string)
    requires pre == "prefix_" || pre == "nested_"
    requires s == pre + "${TEST_VAR}" && expanded == pre + "test_value"
    ensures ExpandString(s, TestEnv) == expanded
  {
    assert '$' !in pre;
    ExpandInstance(pre, expanded, s);
  }

  /** `pre${TEST_VAR}` with TEST_VAR set to "test_value" becomes `pre` followed by "test_value". */
  lemma ExpandInstance(pre: string, expanded: string, s: string)
    requires '$' !in pre
    requires s == pre + "${TEST_VAR}" && expanded == pre + "test_value"
    ensures ExpandString(s, TestEnv) == expanded
  {
    var env := TestEnv;
    assert '}' !in "TEST_VAR";
    assert s == pre + "${" + "TEST_VAR" + "}" + "";
    ExpandSingle(pre, "TEST_VAR", "", env);
    assert Getenv(env, "TEST_VAR") == "test_value";
    assert pre + "test_value" + "" == expanded;
  }

  /** The facts about the example's literals that `ExpandSingle` needs and gives. */
  lemma ExampleTexts()
    ensures '$' !in "prefix_" && '}' !in "TEST_VAR"
    ensures Getenv(map["TEST_VAR" := "test_value"], "TEST_VAR") == "test_value"
    ensures "prefix_" + "test_value" + "_suffix" == "prefix_test_value_suffix"
  {
  }

  /** A placeholder is determined by the properties its contract states. */
  lemma PlaceholderAt(s: string, start: nat, end: nat)
    requires start + 2 <= end < |s|
    requires OccursAt(s, "${", start) && s[end] == '}'
    requires forall i :: 0 <= i < start ==> !OccursAt(s, "${", i)
    requires forall i :: start <= i < end ==> s[i] != '}'
    ensures Placeholder(s) == Some((start, end))
  {
    assert Find(s, "${", 0) == start;
    assert OccursAt(s, "}", end) by { assert s[end..end + 1] == [s[end]]; }
    assert forall i :: start <= i < end ==> !OccursAt(s, "}", i) by {
      forall i | start <= i < end ensures !OccursAt(s, "}", i) {
        if i + 1 <= |s| { assert s[i..i + 1] == [s[i]]; }
      }
    }
    assert Find(s, "}", start) == end;
  }

  // ---- find_config_file ----

  const ConfigFileName: string := ".context"

  /**
   * The `.context` of `dir` or, failing that, of its nearest ancestor that has
   * one; what it finds always exists.
   */
  function NearestConfig(dir: Path, existing: set<Path>): (r: Option<Path>)
    ensures r.Some? ==> r.value in existing
    decreases |dir|
  {
    if Child(dir, ConfigFileName) in existing then Some(Child(dir, ConfigFileName))
    else if dir == [] then None
    else NearestConfig(Parent(dir), existing)
  }

  /** The walk finds the `.context` of the deepest directory on the chain from `dir` to the root, and only fails when none has one. */
  lemma {:induction false} NearestConfigSpec(dir: Path, existing: set<Path>)
    ensures NearestConfig(dir, existing).Some? <==>
      exists k :: 0 <= k <= |dir| && dir[..k] + [ConfigFileName] in existing
    ensures NearestConfig(dir, existing).Some? ==>
      exists k :: 0 <= k <= |dir| && NearestConfig(dir, existing).value == dir[..k] + [ConfigFileName]
        && NearestConfig(dir, existing).value in existing
        && forall j :: k < j <= |dir| ==> dir[..j] + [ConfigFileName] !in existing
    decreases |dir|
  {
    assert dir[..|dir|] == dir;
    if Child(dir, ConfigFileName) in existing {
      assert NearestConfig(dir, existing).value == dir[..|dir|] + [ConfigFileName];
    } else if dir == [] {
      assert NearestConfig(dir, existing).None?;
      assert dir[..0] + [ConfigFileName] == Child(dir, ConfigFileName);
    } else {
      var up := Parent(dir);
      NearestConfigSpec(up, existing);
      if NearestConfig(dir, existing).Some? {
        var k :| 0 <= k <= |up| && NearestConfig(up, existing).value == up[..k] + [ConfigFileName]
          && NearestConfig(up, existing).value in existing
          && forall j :: k < j <= |up| ==> up[..j] + [ConfigFileName] !in existing;
        assert dir[..k] == up[..k];
        NoneAbove(dir, existing, k);
      } else {
        assert dir[..0] == up[..0];
        NoneAbove(dir, existing, 0);
      }
    }
  }

  /** A miss at `dir` and at every ancestor of it deeper than `k` is a miss at every depth of `dir` beyond `k`. */
  lemma NoneAbove(dir: Path, existing: set<Path>, k: nat)
    requires dir != [] && Child(dir, ConfigFileName) !in existing && k <= |Parent(dir)|
    requires forall j :: k < j <= |Parent(dir)| ==> Parent(dir)[..j] + [ConfigFileName] !in existing
    ensures forall j :: k < j <= |dir| ==> dir[..j] + [ConfigFileName] !in existing
  {
    var up := Parent(dir);
    forall j | k < j <= |dir| ensures dir[..j] + [ConfigFileName] !in existing {
      if j < |dir| {
        assert dir[..j] == up[..j];
      } else {
        assert dir[..j] == dir;
      }
    }
  }

  /** `find_config_file(start_dir)`; `existing` is the set of paths for which `exists()` holds. */
  method FindConfigFile(startDir: Path, existing: set<Path>) returns (r: Option<Path>)
    ensures r == NearestConfig(startDir, existing)
  {
    var current := startDir;
    while current != Parent(current)
      invariant NearestConfig(current, existing) == NearestConfig(startDir, existing)
      decreases |current|
    {
      var configPath := Child(current, ConfigFileName);
      if configPath in existing {
        return Some(configPath);
      }
      current := Parent(current);
    }
    var configPath := Child(current, ConfigFileName);
    if configPath in existing {
      return Some(configPath);
    }
    return None;
  }

  /**
   * The file `load_config(config_path)` reads: the given path, or the nearest
   * `.context` above `cwd` when none is given; None when that file does not
   * exist, where `load_config` raises `FileNotFoundError`.
   */
  function ConfigLocation(configPath: Option<Path>, cwd: Path, existing: set<Path>): (r: Option<Path>)
    ensures r.Some? ==> r.value in existing
    ensures configPath.Some? ==> (r.Some? <==> configPath.value in existing)
    ensures configPath.Some? && r.Some? ==> r.value == configPath.value
    ensures configPath.None? ==> r == NearestConfig(cwd, existing)
  {
    if configPath.Some? then
      if configPath.value in existing then configPath else None
    else
      NearestConfigSpec(cwd, existing);
      NearestConfig(cwd, existing)
  }
}
