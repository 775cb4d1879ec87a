# dot-context in Dafny

A model of the core of dot-context (`dcx`). This command-line tool collects
named *context sets* of project files, declared in a YAML `.context` file.
It formats the files into a prompt and sends a question with that prompt to
an LLM provider: OpenAI, Anthropic, or Gemini through OpenAI's SDK.

The model covers five parts of the tool:

- **Context-set resolution** (`context_sets.dfy`):
  - glob matches filtered to regular files;
  - one level of includes, with self-inclusion skipped and missing includes
    warned about;
  - the sorted result;
  - the registry built from the `Sets` section;
  - the lookup by name.
- **Context formatting and query orchestration** (`query.dfy`):
  - the per-file sections and their token total;
  - the prompt template;
  - the header-stripping regex `# .*?\n\n`;
  - multi-set assembly with order-preserving deduplication;
  - the decision sequence of `execute_query`, down to the streamed response.
- **Utilities**:
  - the regex token estimator and the token-count display (`tokens.dfy`);
  - `${VAR}` expansion over the parsed configuration tree and the upward
    search for `.context` (`config.dfy`);
  - the string, ordering and path helpers these rely on (`text.dfy`,
    `paths.dfy`).
- **Providers**:
  - the fields each constructor sets;
  - the ordered `validate_config` checks;
  - message lists;
  - the fail-open completion and streaming rules (`chat.dfy`, `openai.dfy`,
    `anthropic.dfy`, `gemini.dfy`).
- **The `get_provider` dispatch** (`providers.dfy`).

Everything outside the process is a parameter:

- **File system.** `FileSystem` pairs an abstract `glob(base, pattern)` with
  the set of regular files. `Disk` maps each readable path to its relative
  display name and its content.
- **Configuration.** `existing` is the set of paths that exist. The parsed
  YAML is a `Value` tree.
- **Environment.** The environment is a map.
- **User input.** The answer typed at the empty-set question is a string.
- **SDKs.** Package availability and whether a client constructor succeeds
  are booleans. Each SDK backend is a function from the request sent to the
  reply, the stream, or the exception message it produces.

Paths are sequences of components, `Path = seq<string>`. They are ordered
component by component, as `pathlib` compares them.

Where the source loops or mutates, the model does too:
- `get_matching_files`, the registry loop, `find_config_file`, the
  formatting loop, the `seen`-set deduplication, the stream loops and the
  response accumulation are methods with loops;
- `sorted` is an insertion sort.

Each such method is proved equal to a specification function, and the
properties are proved about those functions.

## Model

| member | source | states |
|---|---|---|
| Text.Lower | dcx/providers/__init__.py:31 | `str.lower` keeps the length and lowercases each character; ASCII letters only. |
| Text.SplitJoin | dcx/query.py:153 | Joining the pieces of `split(",")` with "," gives the original text back, so splitting loses and adds nothing. |
| Text.SplitCount | dcx/query.py:153 | `split(",")` gives one piece more than there are commas. |
| Text.OccurrencesPositive | dcx/query.py:153 | A character occurs a positive number of times exactly when it is in the text. |
| Text.Trim | dcx/query.py:153 | `strip()` is a contiguous slice of its input. Everything before and after the slice is whitespace, and the slice neither starts nor ends with whitespace. |
| Text.StripIsTrim | dcx/query.py:153 | Those properties determine the result: any slice with only whitespace around it and no whitespace at its ends is `Trim`'s result. |
| Text.TrimKeepsAt | dcx/query.py:153 | A non-whitespace character of the input lies inside the kept slice, at the same offset from the slice's start. |
| Text.TrimKeepsNonSpace | dcx/query.py:153 | Every non-whitespace character of the input survives `strip()`. |
| Text.ConcatAppend | dcx/query.py:239-240 | Appending chunk lists appends their concatenations. |
| Text.ConcatLength | dcx/query.py:239-240 | The accumulated text is as long as all its chunks together. |
| Tokens.CountTokensSimple | dcx/utils/tokens.py:16-37 | The findall count equals the number of maximal runs of word characters plus the number of characters that are neither word characters nor whitespace. |
| Tokens.CountBounds | dcx/utils/tokens.py:32-37 | The count never exceeds the text length, and it is 0 exactly when the text is all whitespace (the empty text included). |
| Tokens.FindAllNonEmpty | dcx/utils/tokens.py:36 | A text with a non-whitespace character has at least one token. |
| Tokens.FindAllTokenShape | dcx/utils/tokens.py:16 | Every token is a non-empty run of word characters or a single symbol character. |
| Tokens.FindAllSpellsText | dcx/utils/tokens.py:36 | The tokens, concatenated in order, spell the text with its whitespace removed: findall skips only whitespace. |
| Tokens.CountExampleWords | dcx/tests/test_tokens.py:17-21 | "" counts 0 and "hello world" counts 2. |
| Tokens.CountExamplePunctuation | dcx/tests/test_tokens.py:22-24 | "one, two, three." counts 6. |
| Tokens.NatToStringValue | dcx/utils/tokens.py:81 | `str(count)` is a decimal numeral whose value is the count. |
| Tokens.FormatTokenCount | dcx/utils/tokens.py:80-85 | Below 1000 the result is all digits. Below a million it ends in "K", and from a million on in "M"; in both cases the decimal point is third from the end. |
| Tokens.FormatSmall | dcx/utils/tokens.py:80-81 | Below 1000 the result is the decimal numeral of the count. |
| Tokens.FormatThousands | dcx/utils/tokens.py:82-83 | For counts from 1000 below a million that are multiples of 100, the result is count/1000 with one decimal, then "K". |
| Tokens.FormatMillions | dcx/utils/tokens.py:84-85 | For multiples of 100000 from a million on, the result is count/1000000 with one decimal, then "M". |
| Tokens.FormatExamplesSmall | dcx/tests/test_tokens.py:74-76 | 0, 42 and 999 format as "0", "42" and "999". |
| Tokens.FormatExamplesThousands | dcx/tests/test_tokens.py:79-81 | 1000, 1500 and 10500 format as "1.0K", "1.5K" and "10.5K". |
| Tokens.FormatExamplesMillions | dcx/tests/test_tokens.py:84-85 | 1000000 and 2500000 format as "1.0M" and "2.5M". |
| Paths.PathLessIrreflexive | dcx/context_sets.py:68 | No path sorts before itself. |
| Paths.PathLessTransitive | dcx/context_sets.py:68 | The path order is transitive. |
| Paths.PathLessTotal | dcx/context_sets.py:68 | Any two distinct paths are ordered one way or the other. |
| Paths.PathLessCommonPrefix | dcx/context_sets.py:49-52 | Paths under the same base directory compare as their parts below it do. |
| Paths.IncreasingHasNoDuplicates | dcx/context_sets.py:44 | A strictly increasing list repeats no path and has as many elements as its set. |
| Paths.SortedPaths | dcx/context_sets.py:68 | `sorted(list(s))` is strictly increasing and has exactly the elements of `s`. |
| Paths.IncreasingUnique | dcx/context_sets.py:68 | Two strictly increasing lists with the same elements are equal, so the sorted list is determined by the set. |
| Paths.SortPaths | dcx/context_sets.py:68 | The insertion sort returns the sorted list of the set: strictly increasing, with the same elements and as many as the set has. |
| Config.Find | dcx/config.py:90-91 | `str.find` gives -1 when the pattern does not occur from `from` on, and otherwise the first position from `from` where it occurs. |
| Config.Placeholder | dcx/config.py:89-92 | The substituted span starts at the first "${" and ends at the first "}" after it. When there is none, no "}" follows any "${". |
| Config.ExpandString | dcx/config.py:87-96 | A string without a placeholder is unchanged. Otherwise the text before it and after it is kept and the placeholder is replaced by the variable's value, "" when unset. |
| Config.ExpandEnvVars | dcx/config.py:77-98 | The expansion keeps the kind of every value. A string becomes its `ExpandString`. A dict keeps its keys and maps each value to its expansion. A list keeps its length and maps each item to its expansion. Anything else is unchanged. |
| Config.ExpandPreservesShape | dcx/config.py:83-86 | A dict keeps exactly its keys and a list its length, recursively at every depth. |
| Config.ExpandWithoutPlaceholders | dcx/config.py:87-98 | A tree with no placeholder anywhere is returned unchanged. |
| Config.ExpandKeepsLaterPlaceholders | dcx/config.py:90-95 | Only the first placeholder is replaced: the prefix before it and the whole suffix after its "}" survive verbatim, later placeholders included. |
| Config.ExpandSingle | dcx/config.py:89-95 | `pre${NAME}post`, where `pre` has no "$" and NAME has no "}", becomes `pre`, then the value of NAME, then `post`. |
| Config.ExpandExample | dcx/tests/test_config.py:14-18 | "prefix_${TEST_VAR}_suffix" with TEST_VAR=test_value becomes "prefix_test_value_suffix". |
| Config.ExpandWithoutDollar | dcx/config.py:87-96 | A string without "$" is left unchanged by the expansion. |
| Config.ExpandDictExample | dcx/tests/test_config.py:21-29 | In the test dict, key1 stays "value1", key2 becomes "test_value" and nested.key3 becomes "prefix_test_value". |
| Config.ExpandListExample | dcx/tests/test_config.py:31-36 | In the test list, item 0 stays "value1", item 1 becomes "test_value" and item 0 of the nested list becomes "nested_test_value". |
| Config.PlaceholderAt | dcx/config.py:89-92 | A span with the properties `Placeholder` ensures is the one it finds. |
| Config.NearestConfig | dcx/config.py:14-41 | Whatever the upward search finds is one of the existing paths. |
| Config.NearestConfigSpec | dcx/config.py:27-41 | The search succeeds exactly when some directory from the start directory up to the root holds `.context`. It returns the `.context` of the deepest such directory. |
| Config.FindConfigFile | dcx/config.py:14-41 | The `while` walk up to the root, with the root checked last, returns what `NearestConfigSpec` describes. Each step moves to a strictly shorter parent. |
| Config.ConfigLocation | dcx/config.py:58-62 | A given path is used only if it exists. Without one, the nearest `.context` is used. Whatever is returned exists; otherwise `FileNotFoundError`. |
| ContextSets.CollectDirect | dcx/context_sets.py:44-52 | The pattern loop collects the glob results of every pattern under `base_dir` that are regular files. |
| ContextSets.CollectIncluded | dcx/context_sets.py:55-66 | The include loop collects the files of every present include other than the set itself, and warns once for each missing include, in order. |
| ContextSets.GetMatchingFiles | dcx/context_sets.py:32-68 | The result is strictly increasing and is the sorted list of the matches. Without a registry it is the direct matches and nothing is warned; with one, the warnings are the missing includes. |
| ContextSets.DirectMatchesSpec | dcx/context_sets.py:47-52 | A path is a direct match exactly when it is a regular file returned by the glob of some pattern under `base_dir`. |
| ContextSets.IncludedMatchesSpec | dcx/context_sets.py:55-62 | A path is included exactly when it is a direct match of some listed include that is registered and is not the set itself. |
| ContextSets.MatchesSpec | dcx/context_sets.py:44-62 | With a registry, the result's elements are the union of the direct matches and the direct matches of every present include other than the set itself. |
| ContextSets.SelfIncludeIgnored | dcx/context_sets.py:59-62 | Removing the set's own name from its includes changes nothing. |
| ContextSets.OneLevelOnly | dcx/context_sets.py:61 | The included files depend only on the patterns and base directories of the included sets, never on their own includes. |
| ContextSets.MissingIncludesSpec | dcx/context_sets.py:56-66 | The warnings name exactly the includes absent from the registry, one per listed occurrence. |
| ContextSets.Registry | dcx/context_sets.py:17-30 | One set per `Sets` key, named by its key. All share `base_dir` = the config file's parent. Description, match and include default to "", [] and []. |
| ContextSets.BuildRegistry | dcx/context_sets.py:89-93 | The loop over `Sets` builds exactly that registry. |
| ContextSets.LoadContextSets | dcx/context_sets.py:71-95 | Without a `.context` file it raises `FileNotFoundError`. With one it returns the registry of its `Sets` section (an empty one when absent). |
| ContextSets.GetContextSetFiles | dcx/context_sets.py:98-119 | With a configuration found there are two outcomes. An unregistered name raises `KeyError`. Any other name resolves with the whole registry, strictly increasing, warning about its missing includes. |
| ContextSets.ExampleRegistryEntries | dcx/tests/test_context_sets.py:129-141 | The test configuration yields the four sets `markdown`, `subfolder`, `combined` and `with_pattern` with their descriptions, patterns and includes. |
| ContextSets.ExampleDirect | dcx/tests/test_context_sets.py:72-96 | `*.md` matches file1.md and file2.md; `subfolder/*.md` matches subfolder/file3.md. |
| ContextSets.CombinedMatches | dcx/tests/test_context_sets.py:99-111 | `combined` matches file1.md, file2.md and subfolder/file3.md. |
| ContextSets.CombinedExample | dcx/tests/test_context_sets.py:99-111 | The sorted result of `combined` lists file1.md, file2.md, subfolder/file3.md in that order. |
| ContextSets.WithPatternMatches | dcx/tests/test_context_sets.py:114-126 | `with_pattern` matches file4.txt, file1.md and file2.md. |
| ContextSets.WithPatternExample | dcx/tests/test_context_sets.py:114-126 | The sorted result of `with_pattern` lists file1.md, file2.md, file4.txt in that order. |
| Chat.ChatMessages | dcx/providers/openai.py:80-89 | The system entry comes first, and only when the system prompt is non-empty. The user entry with the prompt is always last. |
| Chat.FirstContent | dcx/providers/openai.py:115-126 | The reply is the first choice's content, "" when it is None. A raised exception becomes "Error: " and its message. An empty choice list is the `IndexError` text. |
| Chat.DeltasShape | dcx/providers/openai.py:162-164 | The stream loop yields at most one text per chunk, none of them empty, each the delta content of a chunk that has some. |
| Chat.DeltasSpellStream | dcx/providers/openai.py:162-164 | Filtering drops only empty deltas: the yielded texts concatenate to all the chunks' deltas in order. |
| Chat.Trailer | dcx/providers/openai.py:165-169 | A stream gets one trailing "Error: ..." chunk exactly when the backend raised. |
| Chat.StreamYields | dcx/providers/openai.py:153-169 | Without an exception every yielded text is non-empty. After an exception the last text is "Error: " and its message, and all before it are non-empty. |
| Chat.CollectStream | dcx/providers/openai.py:162-169 | The shared streaming loop of the OpenAI-compatible providers collects exactly those yields. |
| Chat.ThreeChunkStream | dcx/tests/test_providers.py:368-374 | Chunks "Hello", " world", "!" yield ["Hello", " world", "!"]. |
| OpenAI.New | dcx/providers/openai.py:29-39 | The model defaults to "gpt-4" and the api key to None. A client exists exactly when the package is available, the key is truthy and the client constructor succeeds. |
| OpenAI.Issue | dcx/providers/openai.py:48-65 | The first failing check, in order: package, api key, client. The model is never checked. |
| OpenAI.ValidAfterNew | dcx/providers/openai.py:29-65 | A new provider validates exactly when the package is available, the key is truthy and the client was built. The model entry plays no part. |
| OpenAI.ValidateConfig | dcx/providers/openai.py:41-65 | Valid exactly when the package is available, the key is truthy and a client exists. |
| OpenAI.CreateMessages | dcx/providers/openai.py:80-89 | The append-based construction builds the message list `ChatMessages` describes. |
| OpenAI.GetCompletion | dcx/providers/openai.py:110-126 | An invalid configuration gives the fixed not-configured error. Otherwise the result is the first content of the backend's reply to the model and message list. |
| OpenAI.CompletionFailsOpen | dcx/providers/openai.py:110-126 | An invalid provider never consults the backend. A raising backend yields "Error: " and its message instead of an exception. |
| OpenAI.GetCompletionStream | dcx/providers/openai.py:147-169 | The generator's yields, collected in order, are the not-configured chunk alone, or the filtered deltas followed by an error chunk when the backend raised. |
| OpenAI.StreamChunks | dcx/providers/openai.py:128-169 | Invalid gives exactly the not-configured chunk. Valid without an exception gives only non-empty chunks. After an exception, the last chunk is "Error: ..." and the earlier ones are non-empty. |
| OpenAI.StreamExample | dcx/tests/test_providers.py:368-374 | Chunks "Hello", " world", "!" stream as ["Hello", " world", "!"]. |
| Anthropic.New | dcx/providers/anthropic.py:29-41 | The model defaults to "claude-3-opus-20240229". A client exists exactly when the package is available, the key is truthy and the constructor succeeds. |
| Anthropic.Issue | dcx/providers/anthropic.py:50-74 | The first failing check, in order: package, api key, model, client. |
| Anthropic.ValidAfterNew | dcx/providers/anthropic.py:29-74 | A new provider validates exactly when the package is available, the key is truthy, a given model is truthy and the client was built. |
| Anthropic.ValidateConfig | dcx/providers/anthropic.py:43-74 | Valid exactly when the package is available, the key is truthy, the model is truthy and a client exists. |
| Anthropic.RequestFor | dcx/providers/anthropic.py:98-107 | The message list is the single user message, and the system prompt travels on its own. |
| Anthropic.FirstText | dcx/providers/anthropic.py:109-118 | The reply is the first content block's text, "" when there is none, and "Error: " and the message on an exception. |
| Anthropic.GetCompletion | dcx/providers/anthropic.py:95-118 | An invalid configuration gives the fixed not-configured error. Otherwise the result is the first text of the backend's reply. |
| Anthropic.CompletionFailsOpen | dcx/providers/anthropic.py:95-118 | An invalid provider never consults the backend. A raising backend yields "Error: " and its message. |
| Anthropic.GetCompletionStream | dcx/providers/anthropic.py:139-160 | The generator's yields, collected in order, are the not-configured chunk alone, or the text stream followed by an error chunk when the backend raised. |
| Anthropic.StreamChunks | dcx/providers/anthropic.py:120-160 | Invalid gives exactly the not-configured chunk. A valid stream passes every text through unchanged and in order, without filtering. It then adds one "Error: ..." chunk exactly when the backend raised. |
| Gemini.New | dcx/providers/gemini.py:33-43 | The model defaults to "gemini-2.0-flash". A client with the Gemini OpenAI-compatible base URL exists exactly when OpenAI is available, the key is truthy and the constructor succeeds. |
| Gemini.Issue | dcx/providers/gemini.py:52-76 | The first failing check, in order: package, api key, model, client. |
| Gemini.ValidAfterNew | dcx/providers/gemini.py:33-76 | A new provider validates exactly when OpenAI is available, the key is truthy, a given model is truthy and the client was built. |
| Gemini.ValidateConfig | dcx/providers/gemini.py:45-76 | Valid exactly when the OpenAI package is available, the key is truthy, the model is truthy and a client exists. |
| Gemini.CreateMessages | dcx/providers/gemini.py:91-100 | The system entry comes first only for a non-empty system prompt, and the user entry is last. |
| Gemini.GetCompletion | dcx/providers/gemini.py:121-137 | An invalid configuration gives the fixed not-configured error. Otherwise the result is the first choice content of the backend's reply. |
| Gemini.CompletionFailsOpen | dcx/providers/gemini.py:121-137 | An invalid provider never consults the backend. A raising backend yields "Error: " and its message. |
| Gemini.GetCompletionStream | dcx/providers/gemini.py:158-180 | The generator's yields, collected in order, are the not-configured chunk alone, or the non-empty deltas followed by an error chunk when the backend raised. |
| Gemini.StreamChunks | dcx/providers/gemini.py:139-180 | Invalid gives exactly the not-configured chunk. Valid without an exception gives only non-empty chunks. After an exception, the last chunk is "Error: ..." and the earlier ones are non-empty. |
| Gemini.StreamExample | dcx/tests/test_providers.py:389-396 | Chunks "Hello", " world", "!" stream as ["Hello", " world", "!"]. |
| Providers.ProviderName | dcx/providers/__init__.py:31 | The dispatch key is the `provider` entry lowercased character by character, "" when absent. |
| Providers.GetProvider | dcx/providers/__init__.py:31-47 | A provider is returned exactly when the key is "openai" and the package is available. It is an OpenAI provider built from the same configuration. |
| Providers.DispatchOnlyOpenAI | dcx/providers/__init__.py:20-47 | The `name` argument plays no part. "anthropic", "gemini", "unsupported" and "" all give None. |
| Providers.DispatchIgnoresCase | dcx/providers/__init__.py:31-40 | "OpenAI" dispatches like "openai". |
| Providers.ValidateConfig | dcx/providers/base.py:20-28 | `validate_config()` dispatches to the provider's own check. OpenAI needs its package, a truthy key and a client. Anthropic needs its package, a truthy key, a truthy model and a client. Gemini needs the same, with the OpenAI package. |
| Providers.GetCompletion | dcx/providers/base.py:30-50 | An unconfigured provider returns its own error text. A configured one returns the text of its own backend's reply to its own request. |
| Providers.StreamChunks | dcx/providers/base.py:52-72 | An unconfigured provider yields its error text alone. A configured one yields its own filtered deltas, or the Anthropic text stream, each followed by the error trailer. |
| Providers.GetCompletionStream | dcx/providers/base.py:52-72 | The yields of the dispatched generator, collected in order, are `StreamChunks`. |
| Query.Sections | dcx/query.py:30-47 | There are never more sections than files. |
| Query.Readable | dcx/query.py:33-49 | The files that are read are exactly those of the list that can be opened, and there are never more of them than listed. |
| Query.SectionsSpec | dcx/query.py:33-47 | There is one section per readable file, in order: "# " + relative path + a blank line + content + a blank line. |
| Query.SectionsAppend | dcx/query.py:30-51 | Sections and token totals of consecutive file lists concatenate and add up. |
| Query.SkipUnreadable | dcx/query.py:48-49 | A file that cannot be read contributes neither a section nor tokens, and the others are unaffected. |
| Query.FormatContextFromFiles | dcx/query.py:20-51 | The loop returns the sections joined with "\n" and the sum of the files' token counts; an empty list gives ("", 0). |
| Query.FormatTwoFiles | dcx/query.py:30-51 | Two readable files give their two sections separated by "\n". The total is the sum of their counts, positive when the first has a non-whitespace character. |
| Query.HeaderAt | dcx/query.py:74 | The regex matches at the start of a text exactly at its shortest "# ", newline-free text, "\n\n" prefix. |
| Query.StripHeaders | dcx/query.py:74 | `re.sub` never lengthens the text. |
| Query.StripLeadingHeader | dcx/query.py:74 | A header `# name` + a blank line, with a newline-free name, is deleted whole. |
| Query.StripHeaderFree | dcx/query.py:74 | Text without "#" is kept verbatim. |
| Query.StripJoin | dcx/query.py:74 | Stripping joined sections with newline-free names and "#"-free bodies leaves the bodies joined the same way. |
| Query.StripFormattedContext | dcx/query.py:74-75 | Stripping the formatted context deletes every file header and keeps every content with its trailing blank line, in order. |
| Query.StripTwoSections | dcx/query.py:74 | Two adjacent headed sections strip to their two bodies. |
| Query.StripExample | dcx/tests/test_query.py:50-66 | The test's two `# file` headers vanish and `def test():` and `print('hello')` remain. |
| Query.CreatePrompt | dcx/query.py:54-77 | Both template forms open with their own introduction and end with the query verbatim followed by the fixed closing. |
| Query.PromptEmbedsVerbatim | dcx/query.py:67-68 | With file names, the prompt is the fixed introduction, the context verbatim, "My question is: ", the query verbatim and the fixed closing, each at its fixed place. |
| Query.PromptWithoutNames | dcx/query.py:69-75 | Without file names, a context without "#" is embedded verbatim between the shorter introduction and the question. |
| Query.Dedup | dcx/query.py:103-109 | The deduplicated list is never longer than its input and contains only its elements. |
| Query.DedupSpec | dcx/query.py:103-109 | The deduplicated list repeats nothing, has the same elements, and keeps the first occurrences in their original order. |
| Query.RemoveDuplicates | dcx/query.py:103-109 | The `seen`-set loop computes that deduplicated list. |
| Query.AllFilesAppend | dcx/query.py:93-97 | The files of consecutive name lists concatenate, set after set in order. |
| Query.SkipMissingSet | dcx/query.py:98-101 | An unregistered set adds no file and exactly one warning naming it. |
| Query.FormatContextFromMultipleSets | dcx/query.py:80-111 | Without a configuration the first lookup raises. With one, missing sets are warned about in order, and the result formats the deduplicated concatenation of the found sets' files. |
| Query.AccumulateStream | dcx/query.py:224-241 | The first chunk pulled on its own ("" for an empty stream) and the rest appended give the concatenation of every chunk in order. |
| Query.SetNames | dcx/query.py:153 | Name i is the i-th comma-separated part, stripped. There is one name more than the argument has commas, the multi-set path is taken exactly when it contains a comma, and no name contains a comma. |
| Query.ResolveContext | dcx/query.py:152-190 | The context chosen is as follows (`ContextSpec`). With several names: the permissive multi-set context. Otherwise: `KeyError` stops with the untrimmed name, and an empty set proceeds with ("", 0) only when the lowercased answer is "y". |
| Query.ExecuteQuery | dcx/query.py:139-250 | The early returns come in order: configuration, model, set, cancellation, provider, validation. Then the prompt is sent and the streamed or non-streamed response is collected. |
| Query.ModelCheckFirst | dcx/query.py:144-148 | An unknown model stops the query before any set is looked at, whatever the set argument and the confirmation. |
| Query.ProviderChecksBeforeBackends | dcx/query.py:192-201 | Once the context is ready, a missing or unavailable provider ends in the no-provider outcome and a failed validation in the not-configured one. Either outcome is the same whatever the streaming flag and the backends. |
| Query.SingleMissingSet | dcx/query.py:168-173 | A single unregistered set stops the query, naming the set, before any provider is built. |
| Query.MultiSetPermissive | dcx/query.py:155-159 | With a comma in the set argument the context is always ready: missing sets never stop the query. |
| Query.EmptySetConfirmation | dcx/query.py:175-186 | An empty single set proceeds, with context "" and 0 tokens, exactly when the lowercased answer is "y"; otherwise it is cancelled. |
| Query.ConfirmIgnoresCase | dcx/query.py:179-182 | Answering "Y" proceeds with the empty context. |
| Query.StreamedResponse | dcx/query.py:216-241 | A streamed answer is the concatenation of every chunk the provider yields, as long as all of them together. |

## Left out

- File I/O is abstract. `glob.glob` with `recursive=True`, `os.path.isfile`, `open`/`read` with `errors="replace"` and `os.path.relpath` become the `FileSystem` and `Disk` parameters. The `**` semantics and the hidden-file rules of glob are not modelled.
- `count_tokens_in_file` is taken to be `count_tokens_simple` of the content `format_context_from_files` reads. A file that cannot be read contributes no tokens. The separate `stat` and re-read of the file are not modelled.
- Tokens.FormatThousands, Tokens.FormatMillions: these describe only counts divisible by 100 (K) or 100000 (M), where `.1f` does not round. For other counts the model rounds half up on exact decimals (`OneDecimal`). Python formats a binary float half-to-even, so results may differ at ties and near 999950.
- Text.IsWordChar, Text.IsSpace, Text.Lower: `\w`, `\s`, `isspace` and `lower` are modelled for ASCII only; Unicode letters and case mappings are not.
- `load_config` (dcx/config.py:44-74) is left out. YAML parsing, its error path and the reading of the file are replaced by the parsed tree passed in. Only its choice of file is modelled (`ConfigLocation`), together with `_expand_env_vars`.
- Ill-typed configuration is not modelled. The `Sets` entries are assumed to be mappings whose `match` and `include` are lists of strings; `ModelsWellTyped` requires a string `provider`. Other shapes make the source raise `AttributeError` or `TypeError`, and `execute_query` then prints "Error executing query".
- The SDK calls are functions of the request. `temperature` and `max_tokens` are plain pass-throughs and are not part of the request model. Rich output, `console.status`, `Live` and Markdown rendering are left out.
- `execute_query`'s display lines are left out. This includes the `files_count` sum, which counts duplicates and calls `load_context_sets` again, and `format_token_count` of the total.
- The include warnings raised inside each `get_context_set_files` call of the multi-set path are printed, not collected. `FormatContextFromMultipleSets` returns only the missing-set warnings.
- `dcx/cli.py` and `dcx/history.py` are not part of this model: they are the command surface and the JSON history store. `dcx/providers/base.py` is an abstract interface without behaviour. `Providers.Provider` is the union of the three implementations, and the `Providers` functions dispatch its abstract methods to them.
- `get_provider` is modelled as written: only "openai" yields a provider. `dcx/tests/test_providers.py` expects Anthropic and Gemini providers from it as well.
- `dcx/providers/anthropic.py` imports `ANTHROPIC_AVAILABLE` from `dcx/providers/__init__.py`, which does not define it. The model gives the Anthropic provider an availability flag of its own, as the module evidently intends; it is reachable only directly, never through `get_provider`.
- The single-set path of `execute_query` looks up the untrimmed `set_name`; only the multi-set path uses the trimmed names. The model follows the code.
- Query.StripHeaders: its contract states only that the text does not grow. The deletion of headers is stated by the strip lemmas, for contexts whose names contain no newline and whose contents contain no "#". A "#" inside a content can start a further regex match, which the lemmas do not describe.
- Config.ExpandString: a `}` that occurs only before the first `${` is treated as no placeholder, like `find("}", start)` in the source. The source's outer `"}" in config_item` test is implied by that.
