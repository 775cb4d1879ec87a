/**
 * Context sets (dcx/context_sets.py): named groups of files described by glob
 * patterns relative to the directory of the `.context` file, optionally
 * including the direct matches of other sets.
 *
 * The filesystem is abstract: `glob.glob(os.path.join(base, pattern),
 * recursive=True)` is a lookup table from (base, pattern) to the list of
 * paths the glob yields, and `os.path.isfile` is membership in a set.
 */
module ContextSets {
  import opened Wrappers
  import opened Paths
  import Config

  /** What the tool observes of the disk. */
  datatype FileSystem = FileSystem(globs: map<(Path, string), seq<Path>>, files: set<Path>)

  /** The paths `glob` yields for `pattern` below `base`; nothing when the table has no entry. */
  function Glob(fs: FileSystem, base: Path, pattern: string): seq<Path>
  {
    if (base, pattern) in fs.globs then fs.globs[(base, pattern)] else []
  }

  /** One entry of the `Sets` section of the configuration, each key possibly absent. */
  datatype SetConfig = SetConfig(description: Option<string>, matchList: Option<seq<string>>, includeList: Option<seq<string>>)

  /** A `ContextSet` object: all its attributes are fixed by `__init__`. */
  datatype ContextSet = ContextSet(
    name: string,
    description: string,
    matchPatterns: seq<string>,
    includes: seq<string>,
    baseDir: Path)

  function GetOr<T>(o: Option<T>, default: T): T
  {
    if o.Some? then o.value else default
  }

  /** `ContextSet(name, config, base_dir)`; `Registry` states what it sets. */
  function NewContextSet(name: string, config: SetConfig, baseDir: Path): ContextSet
  {
    ContextSet(name, GetOr(config.description, ""), GetOr(config.matchList, []), GetOr(config.includeList, []), baseDir)
  }

  // ---- what get_matching_files computes ----

  /** The regular files among the paths `g`. */
  function RegularFiles(fs: FileSystem, g: seq<Path>): set<Path>
  {
    set p | p in g && p in fs.files
  }

  /** The regular files matched by the patterns, taken one pattern at a time. */
  function DirectMatches(fs: FileSystem, base: Path, patterns: seq<string>): set<Path>
  {
    if |patterns| == 0 then {}
    else DirectMatches(fs, base, patterns[..|patterns| - 1]) + RegularFiles(fs, Glob(fs, base, patterns[|patterns| - 1]))
  }

  /** The files of `cs`'s own patterns. */
  function DirectOf(cs: ContextSet, fs: FileSystem): set<Path>
  {
    DirectMatches(fs, cs.baseDir, cs.matchPatterns)
  }

  /**
   * The files the included sets contribute: for each include naming another
   * set of the registry, that set's files computed without the registry.
   */
  function IncludedMatches(fs: FileSystem, self: string, includes: seq<string>, reg: map<string, ContextSet>): set<Path>
  {
    if |includes| == 0 then {}
    else
      var name := includes[|includes| - 1];
      IncludedMatches(fs, self, includes[..|includes| - 1], reg)
        + (if name in reg && name != self then DirectOf(reg[name], fs) else {})
  }

  /** The set of files `get_matching_files(all_sets)` returns, before sorting. */
  function Matches(cs: ContextSet, fs: FileSystem, allSets: Option<map<string, ContextSet>>): set<Path>
  {
    match allSets
    case None => DirectOf(cs, fs)
    case Some(reg) => DirectOf(cs, fs) + IncludedMatches(fs, cs.name, cs.includes, reg)
  }

  /** The include names a warning is printed for, in order: those the registry lacks. */
  function MissingIncludes(includes: seq<string>, reg: map<string, ContextSet>): seq<string>
  {
    if |includes| == 0 then []
    else
      var name := includes[|includes| - 1];
      MissingIncludes(includes[..|includes| - 1], reg) + (if name in reg then [] else [name])
  }

  /** The first loop of `get_matching_files`: the regular files every pattern's glob yields. */
  method CollectDirect(cs: ContextSet, fs: FileSystem) returns (matching: set<Path>)
    ensures matching == DirectOf(cs, fs)
  {
    matching := {};
    for i := 0 to |cs.matchPatterns|
      invariant matching == DirectMatches(fs, cs.baseDir, cs.matchPatterns[..i])
    {
      var globbed := Glob(fs, cs.baseDir, cs.matchPatterns[i]);
      for j := 0 to |globbed|
        invariant matching == DirectMatches(fs, cs.baseDir, cs.matchPatterns[..i]) + RegularFiles(fs, globbed[..j])
      {
        assert globbed[..j + 1] == globbed[..j] + [globbed[j]];
        if globbed[j] in fs.files {
          matching := matching + {globbed[j]};
        }
      }
      assert globbed[..|globbed|] == globbed;
      assert cs.matchPatterns[..i + 1][..i] == cs.matchPatterns[..i];
    }
    assert cs.matchPatterns[..|cs.matchPatterns|] == cs.matchPatterns;
  }

  /**
   * The second loop of `get_matching_files`: the files of each registered
   * include other than the set itself, each computed without the registry,
   * and a warning for each include the registry lacks.
   */
  method CollectIncluded(cs: ContextSet, fs: FileSystem, reg: map<string, ContextSet>)
    returns (included: set<Path>, warnings: seq<string>)
    ensures included == IncludedMatches(fs, cs.name, cs.includes, reg)
    ensures warnings == MissingIncludes(cs.includes, reg)
    decreases 1
  {
    included := {};
    warnings := [];
    for k := 0 to |cs.includes|
      invariant included == IncludedMatches(fs, cs.name, cs.includes[..k], reg)
      invariant warnings == MissingIncludes(cs.includes[..k], reg)
    {
      var name := cs.includes[k];
      assert cs.includes[..k + 1][..k] == cs.includes[..k];
      if name in reg {
        if name != cs.name {
          var files, _ := GetMatchingFiles(reg[name], fs, None);
          included := included + Elems(files);
        }
      } else {
        warnings := warnings + [name];
      }
    }
    assert cs.includes[..|cs.includes|] == cs.includes;
  }

  /** `ContextSet.get_matching_files`; `warnings` are the names of the missing includes, in the order they are reported. */
  method GetMatchingFiles(cs: ContextSet, fs: FileSystem, allSets: Option<map<string, ContextSet>>)
    returns (files: seq<Path>, warnings: seq<string>)
    ensures StrictlyIncreasing(files) && Elems(files) == Matches(cs, fs, allSets)
    ensures files == SortedPaths(Matches(cs, fs, allSets))
    ensures allSets.None? ==> Elems(files) == DirectOf(cs, fs) && warnings == []
    ensures allSets.Some? ==> warnings == MissingIncludes(cs.includes, allSets.value)
    decreases if allSets.Some? then 2 else 0
  {
    var matching := CollectDirect(cs, fs);
    warnings := [];
    if allSets.Some? {
      var included;
      included, warnings := CollectIncluded(cs, fs, allSets.value);
      matching := matching + included;
    }
    files := SortPaths(matching);
  }

  // ---- properties of the specification ----

  /** A direct match is exactly a regular file some pattern's glob yields. */
  lemma {:induction false} DirectMatchesSpec(fs: FileSystem, base: Path, patterns: seq<string>, p: Path)
    ensures p in DirectMatches(fs, base, patterns) <==>
      p in fs.files && exists i :: 0 <= i < |patterns| && p in Glob(fs, base, patterns[i])
  {
    if |patterns| > 0 {
      var init := patterns[..|patterns| - 1];
      DirectMatchesSpec(fs, base, init, p);
      if p in fs.files && exists i :: 0 <= i < |patterns| && p in Glob(fs, base, patterns[i]) {
        var i :| 0 <= i < |patterns| && p in Glob(fs, base, patterns[i]);
        if i < |init| { assert init[i] == patterns[i]; }
      }
      if p in DirectMatches(fs, base, init) {
        var i :| 0 <= i < |init| && p in Glob(fs, base, init[i]);
        assert patterns[i] == init[i];
      }
    }
  }

  /** An included file comes from a registered include other than the set itself. */
  lemma {:induction false} IncludedMatchesSpec(fs: FileSystem, self: string, includes: seq<string>, reg: map<string, ContextSet>, p: Path)
    ensures p in IncludedMatches(fs, self, includes, reg) <==>
      exists n :: n in includes && n in reg && n != self && p in DirectOf(reg[n], fs)
  {
    if |includes| > 0 {
      var init := includes[..|includes| - 1];
      IncludedMatchesSpec(fs, self, init, reg, p);
      assert includes == init + [includes[|includes| - 1]];
    }
  }

  /**
   * With a registry, a file is in the result exactly when it is a direct match
   * of the set or of a registered include other than the set itself.
   */
  lemma MatchesSpec(cs: ContextSet, fs: FileSystem, reg: map<string, ContextSet>, p: Path)
    ensures p in Matches(cs, fs, Some(reg)) <==>
      || (p in fs.files && exists i :: 0 <= i < |cs.matchPatterns| && p in Glob(fs, cs.baseDir, cs.matchPatterns[i]))
      || exists n :: n in cs.includes && n in reg && n != cs.name && p in DirectOf(reg[n], fs)
  {
    DirectMatchesSpec(fs, cs.baseDir, cs.matchPatterns, p);
    IncludedMatchesSpec(fs, cs.name, cs.includes, reg, p);
  }

  /** `includes` without any occurrence of `name`. */
  function Without(includes: seq<string>, name: string): (r: seq<string>)
    ensures forall n :: n in r <==> n in includes && n != name
  {
    if |includes| == 0 then []
    else Without(includes[..|includes| - 1], name) + (if includes[|includes| - 1] == name then [] else [includes[|includes| - 1]])
  }

  /** Naming the set itself among its includes contributes nothing. */
  lemma SelfIncludeIgnored(cs: ContextSet, fs: FileSystem, reg: map<string, ContextSet>)
    ensures Matches(cs.(includes := Without(cs.includes, cs.name)), fs, Some(reg)) == Matches(cs, fs, Some(reg))
  {
    var cs2 := cs.(includes := Without(cs.includes, cs.name));
    forall p ensures p in Matches(cs2, fs, Some(reg)) <==> p in Matches(cs, fs, Some(reg)) {
      MatchesSpec(cs, fs, reg, p);
      MatchesSpec(cs2, fs, reg, p);
    }
  }

  /**
   * Only one level of inclusion: the result does not depend on the includes
   * of the included sets, only on their patterns and base directories.
   */
  lemma {:induction false} OneLevelOnly(fs: FileSystem, self: string, includes: seq<string>, reg: map<string, ContextSet>, reg2: map<string, ContextSet>)
    requires reg.Keys == reg2.Keys
    requires forall n :: n in reg ==> reg2[n].matchPatterns == reg[n].matchPatterns && reg2[n].baseDir == reg[n].baseDir
    ensures IncludedMatches(fs, self, includes, reg) == IncludedMatches(fs, self, includes, reg2)
  {
    if |includes| > 0 {
      OneLevelOnly(fs, self, includes[..|includes| - 1], reg, reg2);
    }
  }

  /** A warning is printed for exactly the include names absent from the registry. */
  lemma {:induction false} MissingIncludesSpec(includes: seq<string>, reg: map<string, ContextSet>)
    ensures forall n :: n in MissingIncludes(includes, reg) <==> n in includes && n !in reg
    ensures |MissingIncludes(includes, reg)| <= |includes|
  {
    if |includes| > 0 {
      MissingIncludesSpec(includes[..|includes| - 1], reg);
      assert includes == includes[..|includes| - 1] + [includes[|includes| - 1]];
    }
  }

  // ---- the registry ----

  /** Why a registry or a set's files could not be produced. */
  datatype LookupError = FileNotFound | KeyError(name: string)

  /** The registry `load_context_sets` builds from the `Sets` section of the file at `configPath`. */
  function Registry(sets: map<string, SetConfig>, configPath: Path): (r: map<string, ContextSet>)
    ensures r.Keys == sets.Keys
    ensures forall n :: n in r ==>
      && r[n].name == n
      && r[n].baseDir == Parent(configPath)
      && r[n].description == GetOr(sets[n].description, "")
      && r[n].matchPatterns == GetOr(sets[n].matchList, [])
      && r[n].includes == GetOr(sets[n].includeList, [])
  {
    map n | n in sets :: NewContextSet(n, sets[n], Parent(configPath))
  }

  /** The loop of `load_context_sets` over the `Sets` entries, each made a `ContextSet` based at the file's directory. */
  method BuildRegistry(setsConfig: map<string, SetConfig>, path: Path) returns (registry: map<string, ContextSet>)
    ensures registry == Registry(setsConfig, path)
  {
    var baseDir := Parent(path);
    registry := map[];
    var remaining := setsConfig.Keys;
    while remaining != {}
      invariant remaining <= setsConfig.Keys
      invariant registry == map n | n in setsConfig.Keys - remaining :: NewContextSet(n, setsConfig[n], baseDir)
      decreases |remaining|
    {
      var setName :| setName in remaining;
      registry := registry[setName := NewContextSet(setName, setsConfig[setName], baseDir)];
      remaining := remaining - {setName};
    }
  }

  /**
   * `load_context_sets(config_path)`. When no path is given, the nearest
   * `.context` above `cwd` is used; no such file, or a given path that does
   * not exist, is `FileNotFoundError`. `sets` is the `Sets` section of the
   * parsed file, None when the file has none.
   */
  method LoadContextSets(configPath: Option<Path>, cwd: Path, existing: set<Path>, sets: Option<map<string, SetConfig>>)
    returns (r: Result<map<string, ContextSet>, LookupError>)
    ensures Config.ConfigLocation(configPath, cwd, existing).None? <==> r.Err?
    ensures r.Err? ==> r.error == FileNotFound
    ensures r.Ok? ==> r.value == Registry(GetOr(sets, map[]), Config.ConfigLocation(configPath, cwd, existing).value)
  {
    var path: Path;
    if configPath.Some? {
      path := configPath.value;
    } else {
      var found := Config.FindConfigFile(cwd, existing);
      if found.None? {
        return Err(FileNotFound);
      }
      path := found.value;
    }
    if path !in existing {
      return Err(FileNotFound);
    }
    var registry := BuildRegistry(GetOr(sets, map[]), path);
    return Ok(registry);
  }

  /** What `get_context_set_files` returns or raises. */
  ghost function ContextSetFiles(setName: string, configPath: Option<Path>, cwd: Path, existing: set<Path>,
                                 sets: Option<map<string, SetConfig>>, fs: FileSystem): Result<seq<Path>, LookupError>
  {
    var location := Config.ConfigLocation(configPath, cwd, existing);
    if location.None? then Err(FileNotFound)
    else
      var reg := Registry(GetOr(sets, map[]), location.value);
      if setName !in reg then Err(KeyError(setName))
      else Ok(SortedPaths(Matches(reg[setName], fs, Some(reg))))
  }

  /**
   * `get_context_set_files(set_name, config_path)`: the set's files resolved
   * with the whole registry, `KeyError` when the name is not registered.
   */
  method GetContextSetFiles(setName: string, configPath: Option<Path>, cwd: Path, existing: set<Path>,
                            sets: Option<map<string, SetConfig>>, fs: FileSystem)
    returns (r: Result<seq<Path>, LookupError>, warnings: seq<string>)
    ensures r == ContextSetFiles(setName, configPath, cwd, existing, sets, fs)
    ensures Config.ConfigLocation(configPath, cwd, existing).Some? ==> (r.Ok? <==> setName in GetOr(sets, map[]))
    ensures r.Ok? ==> StrictlyIncreasing(r.value)
    ensures r.Ok? ==>
      var reg := Registry(GetOr(sets, map[]), Config.ConfigLocation(configPath, cwd, existing).value);
      warnings == MissingIncludes(reg[setName].includes, reg)
  {
    warnings := [];
    var loaded := LoadContextSets(configPath, cwd, existing, sets);
    if loaded.Err? {
      return Err(loaded.error), warnings;
    }
    var contextSets := loaded.value;
    if setName !in contextSets {
      return Err(KeyError(setName)), warnings;
    }
    var files;
    files, warnings := GetMatchingFiles(contextSets[setName], fs, Some(contextSets));
    r := Ok(files);
  }

  // ---- the sets of the example configuration ----

  /** The example configuration: `markdown`, `subfolder`, `combined` and `with_pattern`. */
  function ExampleSets(): map<string, SetConfig>
  {
    map[
      "markdown" := SetConfig(Some("Markdown files"), Some(["*.md"]), None),
      "subfolder" := SetConfig(Some("Subfolder files"), Some(["subfolder/*.md"]), None),
      "combined" := SetConfig(Some("Combined set"), None, Some(["markdown", "subfolder"])),
      "with_pattern" := SetConfig(Some("With pattern and include"), Some(["*.txt"]), Some(["markdown"]))]
  }

  /** A directory `base` holding file1.md, file2.md, subfolder/file3.md and file4.txt. */
  function ExampleDisk(base: Path): FileSystem
  {
    var f1, f2, f3, f4 := base + ["file1.md"], base + ["file2.md"], base + ["subfolder", "file3.md"], base + ["file4.txt"];
    FileSystem(
      map[(base, "*.md") := [f1, f2], (base, "subfolder/*.md") := [f3], (base, "*.txt") := [f4]],
      {f1, f2, f3, f4})
  }

  function ExampleRegistry(base: Path): map<string, ContextSet>
  {
    Registry(ExampleSets(), base + [".context"])
  }

  /** Every set of the example shares the directory of the `.context` file; absent keys take their defaults. */
  lemma ExampleRegistryEntries(base: Path)
    ensures var reg := ExampleRegistry(base);
      && reg.Keys == {"markdown", "subfolder", "combined", "with_pattern"}
      && reg["markdown"] == ContextSet("markdown", "Markdown files", ["*.md"], [], base)
      && reg["subfolder"] == ContextSet("subfolder", "Subfolder files", ["subfolder/*.md"], [], base)
      && reg["combined"] == ContextSet("combined", "Combined set", [], ["markdown", "subfolder"], base)
      && reg["with_pattern"] == ContextSet("with_pattern", "With pattern and include", ["*.txt"], ["markdown"], base)
  {
    assert Parent(base + [".context"]) == base;
  }

  lemma ExampleDirect(base: Path)
    ensures var fs := ExampleDisk(base);
      && DirectMatches(fs, base, ["*.md"]) == {base + ["file1.md"], base + ["file2.md"]}
      && DirectMatches(fs, base, ["subfolder/*.md"]) == {base + ["subfolder", "file3.md"]}
      && DirectMatches(fs, base, ["*.txt"]) == {base + ["file4.txt"]}
      && DirectMatches(fs, base, []) == {}
  {
    var fs := ExampleDisk(base);
    var f1, f2, f3, f4 := base + ["file1.md"], base + ["file2.md"], base + ["subfolder", "file3.md"], base + ["file4.txt"];
    assert Glob(fs, base, "*.md") == [f1, f2];
    assert Glob(fs, base, "subfolder/*.md") == [f3];
    assert Glob(fs, base, "*.txt") == [f4];
    assert RegularFiles(fs, [f1, f2]) == {f1, f2};
    assert RegularFiles(fs, [f3]) == {f3};
    assert RegularFiles(fs, [f4]) == {f4};
    assert ["*.md"][..0] == [] && ["subfolder/*.md"][..0] == [] && ["*.txt"][..0] == [];
  }

  lemma ExampleOrder(base: Path)
    ensures PathLess(base + ["file1.md"], base + ["file2.md"])
    ensures PathLess(base + ["file2.md"], base + ["subfolder", "file3.md"])
    ensures PathLess(base + ["file2.md"], base + ["file4.txt"])
  {
    PathLessCommonPrefix(base, ["file1.md"], ["file2.md"]);
    PathLessCommonPrefix(base, ["file2.md"], ["subfolder", "file3.md"]);
    PathLessCommonPrefix(base, ["file2.md"], ["file4.txt"]);
    assert StrLess("file2.md", "subfolder");
    assert StrLess("file1.md", "file2.md") by { assert "file1.md"[1..] == "ile1.md"; }
  }

  /** `combined` includes `markdown` and `subfolder`: file1.md, file2.md and subfolder/file3.md. */
  lemma CombinedMatches(base: Path)
    ensures var reg := ExampleRegistry(base);
      Matches(reg["combined"], ExampleDisk(base), Some(reg))
        == {base + ["file1.md"], base + ["file2.md"], base + ["subfolder", "file3.md"]}
  {
    ExampleRegistryEntries(base);
    CombinedIn(base, ExampleRegistry(base));
  }

  /** `CombinedMatches` for any registry with the example's entries. */
  lemma CombinedIn(base: Path, reg: map<string, ContextSet>)
    requires "markdown" in reg && reg["markdown"] == ContextSet("markdown", "Markdown files", ["*.md"], [], base)
    requires "subfolder" in reg && reg["subfolder"] == ContextSet("subfolder", "Subfolder files", ["subfolder/*.md"], [], base)
    requires "combined" in reg && reg["combined"] == ContextSet("combined", "Combined set", [], ["markdown", "subfolder"], base)
    ensures Matches(reg["combined"], ExampleDisk(base), Some(reg))
      == {base + ["file1.md"], base + ["file2.md"], base + ["subfolder", "file3.md"]}
  {
    var fs := ExampleDisk(base);
    ExampleDirect(base);
    assert IncludedMatches(fs, "combined", ["markdown"], reg) == DirectOf(reg["markdown"], fs) by {
      assert ["markdown"][..0] == [];
    }
    assert ["markdown", "subfolder"][..1] == ["markdown"];
  }

  /** Three paths in ascending order are their own sorted list. */
  lemma SortedThree(a: Path, b: Path, c: Path)
    requires PathLess(a, b) && PathLess(b, c)
    ensures SortedPaths({a, b, c}) == [a, b, c]
  {
    PathLessTransitive(a, b, c);
    var r := [a, b, c];
    assert StrictlyIncreasing(r);
    assert Elems(r) == {a, b, c};
    IncreasingUnique(SortedPaths({a, b, c}), r);
  }

  /** The sorted result for `combined`: three files, the subfolder last. */
  lemma CombinedExample(base: Path)
    ensures var reg := ExampleRegistry(base);
      SortedPaths(Matches(reg["combined"], ExampleDisk(base), Some(reg)))
        == [base + ["file1.md"], base + ["file2.md"], base + ["subfolder", "file3.md"]]
  {
    CombinedMatches(base);
    ExampleOrder(base);
    SortedThree(base + ["file1.md"], base + ["file2.md"], base + ["subfolder", "file3.md"]);
  }

  /** `with_pattern` matches `*.txt` and includes `markdown`: file1.md, file2.md and file4.txt. */
  lemma WithPatternMatches(base: Path)
    ensures var reg := ExampleRegistry(base);
      Matches(reg["with_pattern"], ExampleDisk(base), Some(reg))
        == {base + ["file1.md"], base + ["file2.md"], base + ["file4.txt"]}
  {
    ExampleRegistryEntries(base);
    WithPatternIn(base, ExampleRegistry(base));
  }

  /** `WithPatternMatches` for any registry with the example's entries. */
  lemma WithPatternIn(base: Path, reg: map<string, ContextSet>)
    requires "markdown" in reg && reg["markdown"] == ContextSet("markdown", "Markdown files", ["*.md"], [], base)
    requires "with_pattern" in reg
      && reg["with_pattern"] == ContextSet("with_pattern", "With pattern and include", ["*.txt"], ["markdown"], base)
    ensures Matches(reg["with_pattern"], ExampleDisk(base), Some(reg))
      == {base + ["file1.md"], base + ["file2.md"], base + ["file4.txt"]}
  {
    var fs := ExampleDisk(base);
    ExampleDirect(base);
    assert IncludedMatches(fs, "with_pattern", ["markdown"], reg) == DirectOf(reg["markdown"], fs) by {
      assert ["markdown"][..0] == [];
    }
    assert DirectOf(reg["with_pattern"], fs) == {base + ["file4.txt"]};
  }

  /** The sorted result for `with_pattern`. */
  lemma WithPatternExample(base: Path)
    ensures var reg := ExampleRegistry(base);
      SortedPaths(Matches(reg["with_pattern"], ExampleDisk(base), Some(reg)))
        == [base + ["file1.md"], base + ["file2.md"], base + ["file4.txt"]]
  {
    WithPatternMatches(base);
    ExampleOrder(base);
    SortedThree(base + ["file1.md"], base + ["file2.md"], base + ["file4.txt"]);
  }
}
