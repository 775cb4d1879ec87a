/**
 * Query handling (dcx/query.py): the formatting of file contents into one
 * context text, the prompt templates and the removal of file headers, the
 * assembly of several context sets, and the decision sequence of
 * `execute_query` up to the collected response.
 */
module Query {
  import opened Wrappers
  import opened Text
  import opened Paths
  import Tokens
  import Config
  import ContextSets
  import opened Chat
  import Providers
  import OpenAI

  // ---- formatting files into a context ----

  /** What reading a file gives: the relative path `os.path.relpath` prints for it, and its text. */
  datatype FileEntry = FileEntry(rel: string, content: string)

  /** The files that can be opened and read; opening a path outside the map raises. */
  type Disk = map<Path, FileEntry>

  /** The header-and-body section a readable file contributes. */
  function Section(e: FileEntry): string
  {
    "# " + e.rel + "\n\n" + e.content + "\n\n"
  }

  /** The files of `files` that can be read, in order. */
  function Readable(disk: Disk, files: seq<Path>): (r: seq<Path>)
    ensures |r| <= |files|
    ensures forall i :: 0 <= i < |r| ==> r[i] in disk
    ensures forall p :: p in r <==> p in files && p in disk
  {
    if |files| == 0 then []
    else
      var init := Readable(disk, files[..|files| - 1]);
      var last := files[|files| - 1];
      assert forall p :: p in files <==> p in files[..|files| - 1] || p == last;
      init + (if last in disk then [last] else [])
  }

  /** The sections of the readable files of `files`, in order: at most one per file. */
  function Sections(disk: Disk, files: seq<Path>): (r: seq<string>)
    ensures |r| <= |files|
  {
    if |files| == 0 then []
    else
      var last := files[|files| - 1];
      Sections(disk, files[..|files| - 1]) + (if last in disk then [Section(disk[last])] else [])
  }

  /** The sum of the token counts of the readable files of `files`. */
  function TokenSum(disk: Disk, files: seq<Path>): nat
  {
    if |files| == 0 then 0
    else
      var last := files[|files| - 1];
      TokenSum(disk, files[..|files| - 1]) + (if last in disk then Tokens.CountTokensSimple(disk[last].content) else 0)
  }

  /** Each readable file contributes exactly its section, in input order, and nothing else contributes. */
  lemma {:induction false} SectionsSpec(disk: Disk, files: seq<Path>)
    ensures var r := Readable(disk, files);
      |Sections(disk, files)| == |r| && forall i :: 0 <= i < |r| ==> Sections(disk, files)[i] == Section(disk[r[i]])
  {
    if |files| > 0 {
      SectionsSpec(disk, files[..|files| - 1]);
    }
  }

  /** Sections and token counts of consecutive lists add up. */
  lemma {:induction false} SectionsAppend(disk: Disk, a: seq<Path>, b: seq<Path>)
    ensures Sections(disk, a + b) == Sections(disk, a) + Sections(disk, b)
    ensures TokenSum(disk, a + b) == TokenSum(disk, a) + TokenSum(disk, b)
    decreases |b|
  {
    if |b| == 0 {
      assert a + b == a;
    } else {
      assert (a + b)[..|a + b| - 1] == a + b[..|b| - 1];
      SectionsAppend(disk, a, b[..|b| - 1]);
    }
  }

  /** An unreadable file is skipped: neither the context nor the total changes. */
  lemma SkipUnreadable(disk: Disk, a: seq<Path>, f: Path, b: seq<Path>)
    requires f !in disk
    ensures Sections(disk, a + [f] + b) == Sections(disk, a + b)
    ensures TokenSum(disk, a + [f] + b) == TokenSum(disk, a + b)
  {
    SectionsAppend(disk, a + [f], b);
    SectionsAppend(disk, a, [f]);
    SectionsAppend(disk, a, b);
    assert [f][..0] == [];
  }

  /** `format_context_from_files(files)`: the sections joined with a newline, and the token total. */
  method FormatContextFromFiles(disk: Disk, files: seq<Path>) returns (context: string, totalTokens: nat)
    ensures context == Join(Sections(disk, files), "\n")
    ensures totalTokens == TokenSum(disk, files)
    ensures files == [] ==> context == "" && totalTokens == 0
  {
    var contextParts: seq<string> := [];
    totalTokens := 0;
    for i := 0 to |files|
      invariant contextParts == Sections(disk, files[..i])
      invariant totalTokens == TokenSum(disk, files[..i])
    {
      assert files[..i + 1][..i] == files[..i];
      var filePath := files[i];
      assert files[..i + 1][i] == filePath;
      if filePath in disk {
        var entry := disk[filePath];
        totalTokens := totalTokens + Tokens.CountTokensSimple(entry.content);
        contextParts := contextParts + [Section(entry)];
      }
    }
    assert files[..|files|] == files;
    context := Join(contextParts, "\n");
  }

  /** Two readable files give their two sections, joined by a newline, and a text with a non-blank character counts. */
  lemma FormatTwoFiles(disk: Disk, f1: Path, f2: Path)
    requires f1 in disk && f2 in disk
    ensures Join(Sections(disk, [f1, f2]), "\n") == Section(disk[f1]) + "\n" + Section(disk[f2])
    ensures TokenSum(disk, [f1, f2]) == Tokens.CountTokensSimple(disk[f1].content) + Tokens.CountTokensSimple(disk[f2].content)
    ensures (exists i :: 0 <= i < |disk[f1].content| && !IsSpace(disk[f1].content[i])) ==> TokenSum(disk, [f1, f2]) > 0
  {
    assert [f1, f2][..1] == [f1];
    assert [f1][..0] == [];
    var s := Sections(disk, [f1, f2]);
    assert Sections(disk, [f1]) == [Section(disk[f1])];
    assert TokenSum(disk, [f1]) == Tokens.CountTokensSimple(disk[f1].content);
    assert s == [Section(disk[f1]), Section(disk[f2])];
    assert Join(s, "\n") == s[0] + "\n" + Join(s[1..], "\n");
    Tokens.CountBounds(disk[f1].content);
  }

  // ---- removing the file headers ----

  /** The index of the first newline at or after `from`, or `|s|` when there is none. */
  function LineEnd(s: string, from: nat): (j: nat)
    requires from <= |s|
    ensures from <= j <= |s|
    ensures j < |s| ==> s[j] == '\n'
    ensures forall k :: from <= k < j ==> s[k] != '\n'
    decreases |s| - from
  {
    if from == |s| || s[from] == '\n' then from else LineEnd(s, from + 1)
  }

  /** The pattern `# .*?\n\n` matches the first `m` characters of `s`. */
  predicate IsHeader(s: string, m: int)
  {
    4 <= m <= |s| && s[0] == '#' && s[1] == ' ' && s[m - 2] == '\n' && s[m - 1] == '\n'
    && forall k :: 2 <= k < m - 2 ==> s[k] != '\n'
  }

  /** The length of the header match at the start of `s`: it is the only one, and there is none when None. */
  function HeaderAt(s: string): (r: Option<nat>)
    ensures forall m: nat :: IsHeader(s, m) <==> r == Some(m)
    ensures r.Some? ==> IsHeader(s, r.value)
  {
    if |s| >= 2 && s[0] == '#' && s[1] == ' ' then
      var j := LineEnd(s, 2);
      assert forall m: nat :: IsHeader(s, m) ==> m == j + 2 by {
        forall m: nat | IsHeader(s, m) ensures m == j + 2 {
          assert j >= m - 2;
          assert j <= m - 2;
        }
      }
      if j + 1 < |s| && s[j + 1] == '\n' then
        assert IsHeader(s, j + 2);
        Some(j + 2)
      else None
    else None
  }

  /** `re.sub(r"# .*?\n\n", "", s)`: every left-to-right, non-overlapping header match is deleted. */
  function StripHeaders(s: string): (r: string)
    ensures |r| <= |s|
    decreases |s|
  {
    if |s| == 0 then ""
    else
      match HeaderAt(s)
      case Some(m) =>
        assert IsHeader(s, m);
        StripHeaders(s[m..])
      case None => [s[0]] + StripHeaders(s[1..])
  }

  /** A header whose file name has no newline is deleted, and the scan goes on right after it. */
  lemma StripLeadingHeader(name: string, rest: string)
    requires '\n' !in name
    ensures StripHeaders("# " + name + "\n\n" + rest) == StripHeaders(rest)
  {
    var s := "# " + name + "\n\n" + rest;
    var m := |name| + 4;
    assert forall k :: 2 <= k < m - 2 ==> s[k] == name[k - 2];
    assert IsHeader(s, m);
    assert HeaderAt(s) == Some(m);
    assert s[m..] == rest;
  }

  /** Text without a `#` is kept as it is. */
  lemma {:induction false} StripHeaderFree(t: string, rest: string)
    requires '#' !in t
    ensures StripHeaders(t + rest) == t + StripHeaders(rest)
  {
    if |t| == 0 {
      assert t + rest == rest;
    } else {
      var s := t + rest;
      assert s[0] == t[0] && t[0] != '#';
      assert HeaderAt(s).None?;
      assert s[1..] == t[1..] + rest;
      StripHeaderFree(t[1..], rest);
      assert t == [t[0]] + t[1..];
    }
  }

  /** Joined header-and-body parts lose exactly their headers when the names have no newline and the bodies no `#`. */
  lemma {:induction false} StripJoin(parts: seq<string>, names: seq<string>, bodies: seq<string>)
    requires |parts| == |names| == |bodies|
    requires forall i :: 0 <= i < |parts| ==> parts[i] == "# " + names[i] + "\n\n" + bodies[i]
    requires forall i :: 0 <= i < |parts| ==> '\n' !in names[i] && '#' !in bodies[i]
    ensures StripHeaders(Join(parts, "\n")) == Join(bodies, "\n")
  {
    if |parts| == 1 {
      StripLeadingHeader(names[0], bodies[0]);
      StripHeaderFree(bodies[0], "");
      assert bodies[0] + "" == bodies[0];
    } else if |parts| > 1 {
      var tail := Join(parts[1..], "\n");
      StripJoin(parts[1..], names[1..], bodies[1..]);
      assert Join(parts, "\n") == "# " + names[0] + "\n\n" + (bodies[0] + "\n" + tail);
      StripLeadingHeader(names[0], bodies[0] + "\n" + tail);
      assert '#' !in bodies[0] + "\n";
      StripHeaderFree(bodies[0] + "\n", tail);
      assert Join(bodies, "\n") == bodies[0] + "\n" + Join(bodies[1..], "\n");
    }
  }

  /**
   * Stripping the headers of a formatted context leaves each readable file's
   * body, joined as before, when no file name has a newline and no content a `#`.
   */
  lemma StripFormattedContext(disk: Disk, files: seq<Path>)
    requires forall p :: p in disk ==> '\n' !in disk[p].rel && '#' !in disk[p].content
    ensures var r := Readable(disk, files);
      StripHeaders(Join(Sections(disk, files), "\n"))
      == Join(seq(|r|, i requires 0 <= i < |r| => disk[r[i]].content + "\n\n"), "\n")
  {
    var r := Readable(disk, files);
    SectionsSpec(disk, files);
    var names := seq(|r|, i requires 0 <= i < |r| => disk[r[i]].rel);
    var bodies := seq(|r|, i requires 0 <= i < |r| => disk[r[i]].content + "\n\n");
    forall i | 0 <= i < |r| ensures '#' !in bodies[i] {
      assert '#' !in disk[r[i]].content;
    }
    StripJoin(Sections(disk, files), names, bodies);
  }

  /** Of two headed sections, only the bodies remain. */
  lemma StripTwoSections(name1: string, body1: string, name2: string, body2: string)
    requires '\n' !in name1 && '\n' !in name2 && '#' !in body1 && '#' !in body2
    ensures StripHeaders(("# " + name1 + "\n\n" + body1) + ("# " + name2 + "\n\n" + body2)) == body1 + body2
  {
    var second := "# " + name2 + "\n\n" + body2;
    var rest := body1 + second;
    var header1 := "# " + name1 + "\n\n";
    assert (header1 + body1) + second == header1 + rest;
    StripLeadingHeader(name1, rest);
    StripHeaderFree(body1, second);
    StripLeadingHeader(name2, body2);
    StripHeaderFree(body2, "");
    assert body2 + "" == body2;
  }

  /** The headers of the two-file context vanish, and the code lines remain. */
  lemma StripExample()
    ensures StripHeaders(("# " + "file1.py" + "\n\n" + "def test():\n    pass\n\n") + ("# " + "file2.py" + "\n\n" + "print('hello')"))
      == "def test():\n    pass\n\n" + "print('hello')"
  {
    StripTwoSections("file1.py", "def test():\n    pass\n\n", "file2.py", "print('hello')");
  }

  // ---- the prompt ----

  const Intro: string := "Below is the context from my project files:\n\n"
  const IntroWithoutNames: string := "Below is the context from my project:\n\n"
  const QuestionLead: string := "\n\nMy question is: "
  const Closing: string := "\n\nPlease respond to my question based on the provided context."

  /**
   * `create_prompt(context, query, include_filenames)`: in both forms the
   * prompt opens with its introduction and ends with the query verbatim
   * followed by the closing request.
   */
  function CreatePrompt(context: string, query: string, includeFilenames: bool): (r: string)
    ensures |r| >= |query| + |Closing|
    ensures includeFilenames ==> r[..|Intro|] == Intro
    ensures !includeFilenames ==> r[..|IntroWithoutNames|] == IntroWithoutNames
    ensures r[|r| - |Closing| - |query|..|r| - |Closing|] == query
    ensures r[|r| - |Closing|..] == Closing
  {
    if includeFilenames then Intro + context + QuestionLead + query + Closing
    else IntroWithoutNames + StripHeaders(context) + QuestionLead + query + Closing
  }

  /** With file names, the context and the query stand verbatim at fixed places of the template. */
  lemma PromptEmbedsVerbatim(context: string, query: string)
    ensures var r := CreatePrompt(context, query, true);
      |r| == |Intro| + |context| + |QuestionLead| + |query| + |Closing|
      && r[..|Intro|] == Intro
      && r[|Intro|..|Intro| + |context|] == context
      && r[|Intro| + |context|..|Intro| + |context| + |QuestionLead|] == QuestionLead
      && r[|r| - |Closing| - |query|..|r| - |Closing|] == query
      && r[|r| - |Closing|..] == Closing
  {
  }

  /** Without file names, a header-free context is kept as it is. */
  lemma PromptWithoutNames(context: string, query: string)
    ensures '#' !in context ==> CreatePrompt(context, query, false) == IntroWithoutNames + context + QuestionLead + query + Closing
  {
    if '#' !in context {
      StripHeaderFree(context, "");
      assert context + "" == context;
    }
  }

  // ---- several context sets ----

  /** The position of the first occurrence of `x` in `s`, or `|s|` when it does not occur. */
  function FirstIndex(s: seq<Path>, x: Path): (k: nat)
    ensures k <= |s| && (k < |s| <==> x in s)
    ensures k < |s| ==> s[k] == x
    ensures forall j :: 0 <= j < k ==> s[j] != x
  {
    if |s| == 0 then 0 else if s[0] == x then 0 else 1 + FirstIndex(s[1..], x)
  }

  /** The list of first occurrences: a later repeat of an earlier path is dropped. */
  function Dedup(s: seq<Path>): (r: seq<Path>)
    ensures |r| <= |s|
    ensures forall x :: x in r ==> x in s
  {
    if |s| == 0 then []
    else
      var init := s[..|s| - 1];
      var last := s[|s| - 1];
      Dedup(init) + (if last in init then [] else [last])
  }

  /** Appending a path does not move the first occurrence of a path already present. */
  lemma FirstIndexExtend(init: seq<Path>, last: Path, x: Path)
    requires x in init
    ensures FirstIndex(init + [last], x) == FirstIndex(init, x) < |init|
  {
    var s := init + [last];
    var k := FirstIndex(init, x);
    assert s[k] == init[k];
    assert forall j :: 0 <= j < k ==> s[j] == init[j];
  }

  /** A path new to the list first occurs where it is appended. */
  lemma FirstIndexNew(init: seq<Path>, last: Path)
    requires last !in init
    ensures FirstIndex(init + [last], last) == |init|
  {
    var s := init + [last];
    assert forall j :: 0 <= j < |init| ==> s[j] == init[j];
  }

  lemma ElemsAppend(a: seq<Path>, b: seq<Path>)
    ensures Elems(a + b) == Elems(a) + Elems(b)
  {
    forall p ensures p in a + b <==> p in a || p in b { }
  }

  /** The deduplicated list has no repeats, the same paths, and keeps first occurrences in their order. */
  lemma {:induction false} DedupSpec(s: seq<Path>)
    ensures forall i, j :: 0 <= i < j < |Dedup(s)| ==> Dedup(s)[i] != Dedup(s)[j]
    ensures Elems(Dedup(s)) == Elems(s)
    ensures forall i, j :: 0 <= i < j < |Dedup(s)| ==> FirstIndex(s, Dedup(s)[i]) < FirstIndex(s, Dedup(s)[j])
  {
    if |s| > 0 {
      var init := s[..|s| - 1];
      var last := s[|s| - 1];
      assert s == init + [last];
      DedupSpec(init);
      var d := Dedup(init);
      var extra := if last in init then [] else [last];
      var r := Dedup(s);
      assert r == d + extra;
      ElemsAppend(init, [last]);
      ElemsAppend(d, extra);
      forall i | 0 <= i < |d| ensures FirstIndex(s, d[i]) == FirstIndex(init, d[i]) < |init| && d[i] in init {
        assert d[i] in Elems(init);
        FirstIndexExtend(init, last, d[i]);
      }
      if last !in init {
        FirstIndexNew(init, last);
      }
      forall i, j | 0 <= i < j < |r| ensures r[i] != r[j] && FirstIndex(s, r[i]) < FirstIndex(s, r[j]) {
        assert r[i] == d[i];
        if j < |d| {
          assert r[j] == d[j];
        } else {
          assert r[j] == last;
        }
      }
    }
  }

  /** The whole configuration a query reads: where it is, its parsed sections, the disk. */
  datatype Project = Project(
    configPath: Option<Path>,
    cwd: Path,
    existing: set<Path>,
    models: Option<map<string, ProviderConfig>>,
    sets: Option<map<string, ContextSets.SetConfig>>,
    fs: ContextSets.FileSystem,
    disk: Disk)

  /** The `.context` file `load_config` reads, None when it raises `FileNotFoundError`. */
  function Location(pr: Project): Option<Path>
  {
    Config.ConfigLocation(pr.configPath, pr.cwd, pr.existing)
  }

  /** `get_context_set_files(name, config_path)` in the project. */
  ghost function SetFiles(pr: Project, name: string): Result<seq<Path>, ContextSets.LookupError>
  {
    ContextSets.ContextSetFiles(name, pr.configPath, pr.cwd, pr.existing, pr.sets, pr.fs)
  }

  /** The files of the found sets, set after set in the given order; a missing set adds nothing. */
  ghost function AllFiles(pr: Project, names: seq<string>): seq<Path>
  {
    if |names| == 0 then []
    else
      var more := SetFiles(pr, names[|names| - 1]);
      AllFiles(pr, names[..|names| - 1]) + (if more.Ok? then more.value else [])
  }

  /** The names of the sets that are not registered, in order. */
  ghost function MissingSets(pr: Project, names: seq<string>): seq<string>
  {
    if |names| == 0 then []
    else
      var name := names[|names| - 1];
      MissingSets(pr, names[..|names| - 1]) + (if SetFiles(pr, name).Err? then [name] else [])
  }

  /** One step of the assembly loop: the next set adds its files, or its name to the warnings. */
  lemma AssembleStep(pr: Project, names: seq<string>, i: nat)
    requires i < |names|
    ensures AllFiles(pr, names[..i + 1]) == AllFiles(pr, names[..i]) + (if SetFiles(pr, names[i]).Ok? then SetFiles(pr, names[i]).value else [])
    ensures MissingSets(pr, names[..i + 1]) == MissingSets(pr, names[..i]) + (if SetFiles(pr, names[i]).Err? then [names[i]] else [])
  {
    assert names[..i + 1][..i] == names[..i];
    assert names[..i + 1][i] == names[i];
  }

  /** Assembling consecutive name lists concatenates their files. */
  lemma {:induction false} AllFilesAppend(pr: Project, a: seq<string>, b: seq<string>)
    ensures AllFiles(pr, a + b) == AllFiles(pr, a) + AllFiles(pr, b)
    decreases |b|
  {
    if |b| == 0 {
      assert a + b == a;
    } else {
      var init := b[..|b| - 1];
      assert (a + b)[..|a + b| - 1] == a + init;
      assert (a + b)[|a + b| - 1] == b[|b| - 1];
      AllFilesAppend(pr, a, init);
    }
  }

  /** A set that is not registered is skipped: it contributes no file and one warning. */
  lemma SkipMissingSet(pr: Project, a: seq<string>, name: string, b: seq<string>)
    requires Location(pr).Some? && name !in ContextSets.GetOr(pr.sets, map[])
    ensures AllFiles(pr, a + [name] + b) == AllFiles(pr, a + b)
    ensures MissingSets(pr, [name]) == [name]
  {
    AllFilesAppend(pr, a + [name], b);
    AllFilesAppend(pr, a, [name]);
    AllFilesAppend(pr, a, b);
    assert [name][..0] == [];
    assert SetFiles(pr, name) == Err(ContextSets.KeyError(name));
  }

  /** One step of the scan: the next path is kept exactly when it has not been seen before. */
  lemma DedupStep(s: seq<Path>, i: nat)
    requires i < |s|
    ensures Elems(s[..i + 1]) == Elems(s[..i]) + {s[i]}
    ensures Dedup(s[..i + 1]) == Dedup(s[..i]) + (if s[i] in Elems(s[..i]) then [] else [s[i]])
  {
    var prefix := s[..i];
    assert s[..i + 1] == prefix + [s[i]];
    assert s[..i + 1][..i] == prefix;
    ElemsAppend(prefix, [s[i]]);
  }

  /** `unique_files`: the loop over `all_files` with its `seen` set. */
  method RemoveDuplicates(allFiles: seq<Path>) returns (uniqueFiles: seq<Path>)
    ensures uniqueFiles == Dedup(allFiles)
  {
    uniqueFiles := [];
    var seen: set<Path> := {};
    for i := 0 to |allFiles|
      invariant uniqueFiles == Dedup(allFiles[..i])
      invariant seen == Elems(allFiles[..i])
    {
      DedupStep(allFiles, i);
      if allFiles[i] !in seen {
        seen := seen + {allFiles[i]};
        uniqueFiles := uniqueFiles + [allFiles[i]];
      }
    }
    assert allFiles[..|allFiles|] == allFiles;
  }

  /**
   * `format_context_from_multiple_sets(set_names, config_path)`: the missing
   * sets are skipped with a warning, the files deduplicated and formatted;
   * without a `.context` file the first lookup raises.
   */
  method FormatContextFromMultipleSets(setNames: seq<string>, pr: Project)
    returns (r: Result<(string, nat), ContextSets.LookupError>, warnings: seq<string>)
    ensures Location(pr).None? ==> (r.Err? <==> |setNames| > 0)
    ensures r.Err? ==> r.error == ContextSets.FileNotFound
    ensures Location(pr).Some? ==> r.Ok? && warnings == MissingSets(pr, setNames)
    ensures r.Ok? ==>
      var files := Dedup(AllFiles(pr, setNames));
      r.value == (Join(Sections(pr.disk, files), "\n"), TokenSum(pr.disk, files))
  {
    var allFiles: seq<Path> := [];
    warnings := [];
    for i := 0 to |setNames|
      invariant allFiles == AllFiles(pr, setNames[..i])
      invariant warnings == MissingSets(pr, setNames[..i])
      invariant i > 0 ==> Location(pr).Some?
    {
      AssembleStep(pr, setNames, i);
      var files, _ := ContextSets.GetContextSetFiles(setNames[i], pr.configPath, pr.cwd, pr.existing, pr.sets, pr.fs);
      if files.Err? {
        if files.error.FileNotFound? {
          return Err(ContextSets.FileNotFound), warnings;
        }
        warnings := warnings + [setNames[i]];
      } else {
        allFiles := allFiles + files.value;
      }
    }
    assert setNames[..|setNames|] == setNames;
    var uniqueFiles := RemoveDuplicates(allFiles);
    var context, totalTokens := FormatContextFromFiles(pr.disk, uniqueFiles);
    r := Ok((context, totalTokens));
  }

  // ---- the response ----

  /** The streamed response: the first chunk pulled on its own ("" for an empty stream), then the rest appended. */
  method AccumulateStream(chunks: seq<string>) returns (responseText: string)
    ensures responseText == Concat(chunks)
    ensures chunks == [] ==> responseText == ""
  {
    if |chunks| == 0 {
      return "";
    }
    var firstChunk := chunks[0];
    responseText := firstChunk;
    assert chunks[..1] == [firstChunk];
    assert Concat([firstChunk]) == Concat([]) + firstChunk;
    for i := 1 to |chunks|
      invariant responseText == Concat(chunks[..i])
    {
      assert chunks[..i + 1][..i] == chunks[..i];
      responseText := responseText + chunks[i];
    }
    assert chunks[..|chunks|] == chunks;
  }

  // ---- execute_query ----

  /**
   * `[s.strip() for s in set_name.split(",")]`: the comma-separated parts,
   * each stripped, one name more than there are commas.
   */
  function SetNames(setName: string): (r: seq<string>)
    ensures |r| == Occurrences(setName, ',') + 1
    ensures |r| > 1 <==> ',' in setName
    ensures forall i :: 0 <= i < |r| ==> ',' !in r[i]
    ensures |r| == |Split(setName, ',')|
    ensures forall i :: 0 <= i < |r| ==> r[i] == Trim(Split(setName, ',')[i])
  {
    var parts := Split(setName, ',');
    SplitCount(setName, ',');
    OccurrencesPositive(setName, ',');
    var r := seq(|parts|, i requires 0 <= i < |parts| => Trim(parts[i]));
    assert forall i :: 0 <= i < |r| ==> ',' !in r[i] by {
      forall i | 0 <= i < |r| ensures ',' !in r[i] {
        assert r[i] == Trim(parts[i]);
      }
    }
    r
  }

  /** The context a query is asked with, or why it stops before a provider is looked up. */
  datatype ContextChoice = Ready(context: string, tokens: nat) | Missing(name: string) | Declined | NoConfig

  /** The context `execute_query` settles on for `set_name` when the user answers `confirm` to the empty-set question. */
  ghost function ContextSpec(pr: Project, setName: string, confirm: string): ContextChoice
  {
    var names := SetNames(setName);
    if |names| > 1 then
      if Location(pr).None? then NoConfig
      else
        var files := Dedup(AllFiles(pr, names));
        Ready(Join(Sections(pr.disk, files), "\n"), TokenSum(pr.disk, files))
    else
      match SetFiles(pr, setName)
      case Err(e) => if e.FileNotFound? then NoConfig else Missing(e.name)
      case Ok(files) =>
        if files == [] then
          if Lower(confirm) == "y" then Ready("", 0) else Declined
        else Ready(Join(Sections(pr.disk, files), "\n"), TokenSum(pr.disk, files))
  }

  /** The multi-set or single-set branch of `execute_query`, down to the context and its token count. */
  method ResolveContext(pr: Project, setName: string, confirm: string) returns (c: ContextChoice)
    ensures c == ContextSpec(pr, setName, confirm)
  {
    var setNames := SetNames(setName);
    if |setNames| > 1 {
      var r, _ := FormatContextFromMultipleSets(setNames, pr);
      if r.Err? {
        return NoConfig;
      }
      return Ready(r.value.0, r.value.1);
    }
    var files, _ := ContextSets.GetContextSetFiles(setName, pr.configPath, pr.cwd, pr.existing, pr.sets, pr.fs);
    if files.Err? {
      if files.error.FileNotFound? {
        return NoConfig;
      }
      return Missing(files.error.name);
    }
    if files.value == [] {
      var proceed := Lower(confirm);
      if proceed != "y" {
        return Declined;
      }
      return Ready("", 0);
    }
    var context, totalTokens := FormatContextFromFiles(pr.disk, files.value);
    c := Ready(context, totalTokens);
  }

  /** How a query ends: one of its early returns, or the prompt sent with its token count and the response. */
  datatype Outcome =
    | ConfigNotFound
    | ModelNotFound
    | SetNotFound(name: string)
    | Cancelled
    | NoProvider
    | NotConfigured
    | Answered(prompt: string, tokens: nat, response: string)

  /** The `provider` entry of the model's configuration is a string, as `get_provider` needs. */
  predicate ModelsWellTyped(pr: Project, modelName: string)
  {
    pr.models.Some? && modelName in pr.models.value ==> Providers.ProviderIsString(pr.models.value[modelName])
  }

  /** The outcome of `execute_query` with the given answers from the environment. */
  ghost function QueryOutcome(query: string, setName: string, modelName: string, systemPrompt: Option<string>,
                              stream: bool, includeFilenames: bool, pr: Project, confirm: string,
                              packages: Providers.Packages, clientBuilds: bool, b: Providers.Backends): Outcome
    requires ModelsWellTyped(pr, modelName)
  {
    if Location(pr).None? then ConfigNotFound
    else if pr.models.None? || modelName !in pr.models.value then ModelNotFound
    else
      match ContextSpec(pr, setName, confirm)
      case NoConfig => ConfigNotFound
      case Missing(name) => SetNotFound(name)
      case Declined => Cancelled
      case Ready(context, tokens) =>
        var provider := Providers.GetProvider(modelName, pr.models.value[modelName], packages, clientBuilds);
        if provider.None? then NoProvider
        else if !Providers.ValidateConfig(provider.value, packages) then NotConfigured
        else
          var prompt := CreatePrompt(context, query, includeFilenames);
          var response :=
            if stream then Concat(Providers.StreamChunks(provider.value, packages, prompt, systemPrompt, b))
            else Providers.GetCompletion(provider.value, packages, prompt, systemPrompt, b);
          Answered(prompt, tokens, response)
  }

  /**
   * `execute_query(query, set_name, model_name, system_prompt, stream=...,
   * include_filenames=..., config_path=...)`. `confirm` is what the user
   * types at the empty-set question, `packages` and `clientBuilds` how the
   * SDKs behave, and `b` what their backends answer.
   */
  method ExecuteQuery(query: string, setName: string, modelName: string, systemPrompt: Option<string>,
                      stream: bool, includeFilenames: bool, pr: Project, confirm: string,
                      packages: Providers.Packages, clientBuilds: bool, b: Providers.Backends)
    returns (outcome: Outcome)
    requires ModelsWellTyped(pr, modelName)
    ensures outcome == QueryOutcome(query, setName, modelName, systemPrompt, stream, includeFilenames, pr, confirm, packages, clientBuilds, b)
  {
    var location := Config.ConfigLocation(pr.configPath, pr.cwd, pr.existing);
    if location.None? {
      return ConfigNotFound;
    }
    if pr.models.None? || modelName !in pr.models.value {
      return ModelNotFound;
    }
    var modelConfig := pr.models.value[modelName];
    var choice := ResolveContext(pr, setName, confirm);
    if choice.NoConfig? {
      return ConfigNotFound;
    } else if choice.Missing? {
      return SetNotFound(choice.name);
    } else if choice.Declined? {
      return Cancelled;
    }
    var provider := Providers.GetProvider(modelName, modelConfig, packages, clientBuilds);
    if provider.None? {
      return NoProvider;
    }
    if !Providers.ValidateConfig(provider.value, packages) {
      return NotConfigured;
    }
    var prompt := CreatePrompt(choice.context, query, includeFilenames);
    var response;
    if stream {
      var chunks := Providers.GetCompletionStream(provider.value, packages, prompt, systemPrompt, b);
      response := AccumulateStream(chunks);
    } else {
      response := Providers.GetCompletion(provider.value, packages, prompt, systemPrompt, b);
    }
    outcome := Answered(prompt, choice.tokens, response);
  }

  /** An unknown model stops the query before any set is looked up, whatever the sets and the answers. */
  lemma ModelCheckFirst(query: string, setName1: string, setName2: string, modelName: string, systemPrompt: Option<string>,
                        stream: bool, includeFilenames: bool, pr: Project, confirm1: string, confirm2: string,
                        packages: Providers.Packages, clientBuilds: bool, b: Providers.Backends)
    requires Location(pr).Some? && (pr.models.None? || modelName !in pr.models.value)
    ensures QueryOutcome(query, setName1, modelName, systemPrompt, stream, includeFilenames, pr, confirm1, packages, clientBuilds, b)
      == QueryOutcome(query, setName2, modelName, systemPrompt, stream, includeFilenames, pr, confirm2, packages, clientBuilds, b)
      == ModelNotFound
  {
  }

  /**
   * Once the context is settled, a model whose provider is not "openai" with the
   * package importable ends in `NoProvider`, and an OpenAI provider without a
   * truthy key or a client ends in `NotConfigured`: in both cases whatever the
   * backends would answer, streamed or not.
   */
  lemma ProviderChecksBeforeBackends(query: string, setName: string, modelName: string, systemPrompt: Option<string>,
                                     stream1: bool, stream2: bool, includeFilenames: bool, pr: Project, confirm: string,
                                     packages: Providers.Packages, clientBuilds: bool, b1: Providers.Backends, b2: Providers.Backends)
    requires ModelsWellTyped(pr, modelName)
    requires Location(pr).Some? && pr.models.Some? && modelName in pr.models.value
    requires ContextSpec(pr, setName, confirm).Ready?
    ensures var config := pr.models.value[modelName];
      Providers.ProviderName(config) != "openai" || !packages.openai ==>
        QueryOutcome(query, setName, modelName, systemPrompt, stream1, includeFilenames, pr, confirm, packages, clientBuilds, b1)
          == NoProvider
    ensures var config := pr.models.value[modelName];
      Providers.ProviderName(config) == "openai" && packages.openai
        && !(Truthy(Get(config, "api-key", Config.Null)) && clientBuilds) ==>
        QueryOutcome(query, setName, modelName, systemPrompt, stream1, includeFilenames, pr, confirm, packages, clientBuilds, b1)
          == NotConfigured
    ensures var o1 := QueryOutcome(query, setName, modelName, systemPrompt, stream1, includeFilenames, pr, confirm, packages, clientBuilds, b1);
      o1.NoProvider? || o1.NotConfigured? ==>
        o1 == QueryOutcome(query, setName, modelName, systemPrompt, stream2, includeFilenames, pr, confirm, packages, clientBuilds, b2)
  {
    var config := pr.models.value[modelName];
    var provider := Providers.GetProvider(modelName, config, packages, clientBuilds);
    ProviderStage(query, setName, modelName, systemPrompt, stream1, includeFilenames, pr, confirm, packages, clientBuilds, b1);
    ProviderStage(query, setName, modelName, systemPrompt, stream2, includeFilenames, pr, confirm, packages, clientBuilds, b2);
    if provider.Some? {
      OpenAI.ValidAfterNew(config, packages.openai, clientBuilds, Config.Null);
    }
  }

  /** With the context settled, the outcome is decided by provider lookup and validation before any backend is used. */
  lemma ProviderStage(query: string, setName: string, modelName: string, systemPrompt: Option<string>,
                      stream: bool, includeFilenames: bool, pr: Project, confirm: string,
                      packages: Providers.Packages, clientBuilds: bool, b: Providers.Backends)
    requires ModelsWellTyped(pr, modelName)
    requires Location(pr).Some? && pr.models.Some? && modelName in pr.models.value
    requires ContextSpec(pr, setName, confirm).Ready?
    ensures var provider := Providers.GetProvider(modelName, pr.models.value[modelName], packages, clientBuilds);
      var o := QueryOutcome(query, setName, modelName, systemPrompt, stream, includeFilenames, pr, confirm, packages, clientBuilds, b);
      && (provider.None? ==> o == NoProvider)
      && (provider.Some? && !Providers.ValidateConfig(provider.value, packages) ==> o == NotConfigured)
      && (provider.Some? && Providers.ValidateConfig(provider.value, packages) ==> o.Answered?)
  {
  }

  /** A single set name that is not registered stops the query before the provider is looked up. */
  lemma SingleMissingSet(query: string, setName: string, modelName: string, systemPrompt: Option<string>,
                         stream: bool, includeFilenames: bool, pr: Project, confirm: string,
                         packages: Providers.Packages, clientBuilds: bool, b: Providers.Backends)
    requires ModelsWellTyped(pr, modelName)
    requires Location(pr).Some? && pr.models.Some? && modelName in pr.models.value
    requires ',' !in setName && setName !in ContextSets.GetOr(pr.sets, map[])
    ensures QueryOutcome(query, setName, modelName, systemPrompt, stream, includeFilenames, pr, confirm, packages, clientBuilds, b)
      == SetNotFound(setName)
  {
    assert |SetNames(setName)| == 1;
  }

  /** Several set names never stop the query at a missing set or at the empty-set question. */
  lemma MultiSetPermissive(setName: string, pr: Project, confirm: string)
    requires ',' in setName && Location(pr).Some?
    ensures ContextSpec(pr, setName, confirm).Ready?
    ensures var files := Dedup(AllFiles(pr, SetNames(setName)));
      ContextSpec(pr, setName, confirm) == Ready(Join(Sections(pr.disk, files), "\n"), TokenSum(pr.disk, files))
  {
  }

  /** An empty single set goes on, with an empty context and no tokens, exactly when the lowercased answer is "y". */
  lemma EmptySetConfirmation(setName: string, pr: Project, confirm: string)
    requires ',' !in setName && SetFiles(pr, setName) == Ok([])
    ensures ContextSpec(pr, setName, confirm) == (if Lower(confirm) == "y" then Ready("", 0) else Declined)
  {
    assert |SetNames(setName)| == 1;
  }

  /** "Y" is accepted like "y". */
  lemma ConfirmIgnoresCase(setName: string, pr: Project)
    requires ',' !in setName && SetFiles(pr, setName) == Ok([])
    ensures ContextSpec(pr, setName, "Y") == Ready("", 0)
  {
    EmptySetConfirmation(setName, pr, "Y");
    assert Lower("Y") == [LowerChar('Y')] + Lower("");
  }

  /** A streamed answer is every chunk the provider yields, in order; a provider that yields nothing gives "". */
  lemma StreamedResponse(query: string, setName: string, modelName: string, systemPrompt: Option<string>,
                         includeFilenames: bool, pr: Project, confirm: string,
                         packages: Providers.Packages, clientBuilds: bool, b: Providers.Backends)
    requires ModelsWellTyped(pr, modelName)
    requires QueryOutcome(query, setName, modelName, systemPrompt, true, includeFilenames, pr, confirm, packages, clientBuilds, b).Answered?
    ensures var o := QueryOutcome(query, setName, modelName, systemPrompt, true, includeFilenames, pr, confirm, packages, clientBuilds, b);
      var p := Providers.GetProvider(modelName, pr.models.value[modelName], packages, clientBuilds).value;
      var chunks := Providers.StreamChunks(p, packages, o.prompt, systemPrompt, b);
      o.response == Concat(chunks) && |o.response| == TotalLength(chunks)
  {
    var o := QueryOutcome(query, setName, modelName, systemPrompt, true, includeFilenames, pr, confirm, packages, clientBuilds, b);
    var p := Providers.GetProvider(modelName, pr.models.value[modelName], packages, clientBuilds).value;
    ConcatLength(Providers.StreamChunks(p, packages, o.prompt, systemPrompt, b));
  }
}
