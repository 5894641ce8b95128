# Prompt-form engine of a launcher extension, modelled in Dafny

The extension turns Markdown files with YAML front matter into forms. Each
file has a title, typed input fields and a body template. A user fills in
the form, and the values are substituted into the body, into a shell
command line or into an HTTP request. The result is then pasted, copied,
run or sent.

This project models the engine behind that, one Dafny module per source
file, and proves what each part promises:

- `ValueConverter`: how a text, list or boolean value becomes a string. In
  template mode booleans read "是"/"否"; in command mode they read
  "true"/"false". A checkbox field can override either literal.
- `ExtraInputs`: which conditional fields a selected option reveals. The
  reveal loop reads the set it grows, so reveals cascade forward through
  the field list within one call.
- `Placeholders`, `VariableReplacer`, `Template`, `RequestExecutor`: the
  three `{{name}}` substituters (names `[\w-]+` for commands, `\w+` for
  pasted prompts and requests) and the `{selection}`/`{clipboard}` pass.
  JavaScript's `$`-patterns in string replacements are modelled.
- `FormState`, `PromptForm`, `DynamicForm`: default initialisation,
  required-field validation over the visible fields, field changes,
  saving values back as defaults, and the copied command.
- `Deeplink`: merging deeplink inputs with type and option checks, default
  fallback, warnings and the completeness flag.
- `ExecCommon`, `CommandExecutor`, `ExecScript`: environment-variable
  names, the environment built from form values, shell-command detection,
  the PATH merge, the launch decision and the error text.
- `InputTemplates`, `Prompts`, `ConfigWriter`: template merges with
  `copy: <type>`, field-list validation, Obsidian `![[name]]` reference
  expansion with its cycle guard, and the front matter written back.
- `MarkdownBuilder`, `Results`, `CommandResult`, `RequestResult`: the
  Markdown and text reports.
- `AIStorage`, `Storage`, `RequestCache`: the lists and caches kept in
  local storage, including pruning to the ten newest request results.

Helpers:

- `Js` models the JavaScript semantics the code relies on: dynamic values,
  truthiness, `String(...)`, `join`, `trim`, `split` and `replace`.
- `ById` and `Writes` hold list-by-id lookups and loops of conditional
  dictionary writes.
- `PromptTypes` and `FormTypes` are the record types.

The source's own form is kept:

- Components and stores whose methods update fields are classes with
  `modifies` clauses: `MarkdownBuilder.Builder`, the four stores, and
  the two form states.
- Loops are methods with invariants, each proved equal to a specification
  function about which the lemmas are stated.
- Pure code is functions.

Foreign code becomes parameters or is left out; the sections below say
which. Number values are integers.

## Model

| member | source | states |
|---|---|---|
| AIStorage.DefaultConfigShape | src/utils/aiStorage.ts:7-51 | the built-in list has six providers, Perplexity first, and the fallback default is `perplexity`, the id of the first provider, which `find` locates |
| AIStorage.CurrentCases | src/utils/aiStorage.ts:53-71 | missing, empty or unparseable storage yields the fallback configuration, whose providers are `DEFAULT_AI_PROVIDERS` as it now stands and whose default is `perplexity`; a stored string that parses is returned as parsed, whatever the defaults; the configuration read is the function `AIStorage.Current`, the fallback `AIStorage.Fallback` |
| AIStorage.SavedIsCurrent | src/utils/aiStorage.ts:53-75 | what `saveAIConfig` writes is what `getAIConfig` reads back, for any encoding that round-trips and is non-empty |
| AIStorage.UpsertShape | src/utils/aiStorage.ts:84-95 | an add grows the list by one exactly when no provider had the id, keeps every provider with another id in its position, and makes `find` return the new provider; the add is the function `AIStorage.Upsert` |
| AIStorage.UpsertOthers | src/utils/aiStorage.ts:84-95 | an add leaves the lookup of every other id unchanged |
| AIStorage.RemoveShape | src/utils/aiStorage.ts:97-107 | no provider with the id remains and the others keep their order; a removed default moves to the first remaining provider, which can be found and differs from the id; otherwise the default is kept; the removal is the function `AIStorage.Remove` |
| AIStorage.RemoveLastKeepsDefault | src/utils/aiStorage.ts:97-107 | removing the only provider, which is also the default, leaves an empty list and a default naming no provider |
| AIStorage.Store.constructor | src/utils/aiStorage.ts:4-51 | the store starts with the given `ai-config` entry, and the module array `DEFAULT_AI_PROVIDERS` holds the six built-in providers |
| AIStorage.Store.Save | src/utils/aiStorage.ts:73-75 | the entry becomes the encoded configuration; the defaults are untouched, since the text is a snapshot |
| AIStorage.Store.GetConfig | src/utils/aiStorage.ts:53-71 | returns the current configuration; storage is unchanged when it held a parseable configuration and otherwise holds the encoded fallback over the current defaults; the defaults are unchanged |
| AIStorage.Store.GetProvider | src/utils/aiStorage.ts:77-82 | returns the first provider of the current configuration with the id, with the same write-back as `getAIConfig`, and the defaults unchanged |
| AIStorage.Store.AddProvider | src/utils/aiStorage.ts:84-95 | stores the current configuration with the provider upserted and the default unchanged; when that configuration was the fallback, `DEFAULT_AI_PROVIDERS` itself becomes the upserted list (`AIStorage.Step` on an add) |
| AIStorage.Store.RemoveProvider | src/utils/aiStorage.ts:97-107 | stores the current configuration after the removal and default reset of `RemoveShape`; the filtered list is a new array, so the defaults are unchanged (`AIStorage.Step` on a removal) |
| AIStorage.Store.SetDefaultProvider | src/utils/aiStorage.ts:109-113 | stores the current providers with the new default, whether or not a provider has that id; the defaults are unchanged (`AIStorage.Step` on a default change) |
| AIStorage.Step | src/utils/aiStorage.ts:53-113 | every operation saves the configuration it computed from the one read (`AIStorage.Apply`); only an add that read the fallback changes `DEFAULT_AI_PROVIDERS`, which then becomes the upserted list it saved |
| AIStorage.FallbackAddChangesDefaults | src/utils/aiStorage.ts:64-67 | as written, adding a provider that is not a built-in while nothing is stored changes `DEFAULT_AI_PROVIDERS`: the new provider is found there and in every later fallback (sessions are `AIStorage.RunAsWritten`) |
| AIStorage.StoredIgnoresDefaults | src/utils/aiStorage.ts:53-61 | once the entry holds a parseable configuration and the encoding round-trips, the defaults are never read again: sessions that differ only in their defaults save the same entries |
| AIStorage.IntendedDefaultsFixed | src/utils/aiStorage.ts:64-67 | with a copy of the defaults in the fallback, no session changes `DEFAULT_AI_PROVIDERS` (sessions are `AIStorage.RunIntended`) |
| AIStorage.IntendedKeepsDefaults | src/utils/aiStorage.ts:64-67 | the corrected session keeps the defaults and, for an encoding that round-trips, saves exactly the entries the session as written saves |
| Storage.ListedCases | src/utils/storage.ts:9-22 | the list is empty for missing or empty storage, for text that does not parse and for JSON that is not an array, and is the stored array otherwise; the list is the function `Storage.Listed` |
| Storage.WrittenIsListed | src/utils/storage.ts:9-31 | a list written with a round-tripping, non-empty encoding is listed back unchanged |
| Storage.AddKeepsDuplicates | src/utils/storage.ts:27-50 | adding a configuration whose id is taken appends it anyway, and `getProcessor` still finds the earlier one |
| Storage.AddNewIsFound | src/utils/storage.ts:27-50 | after adding a new id, `getProcessor` finds the added configuration |
| Storage.Store.constructor | src/utils/storage.ts:4 | the store starts with the given `processors` entry |
| Storage.Store.List | src/utils/storage.ts:9-22 | returns the listed configurations and changes nothing |
| Storage.Store.Add | src/utils/storage.ts:27-31 | the entry becomes the encoded listed array with the configuration at its end |
| Storage.Store.Remove | src/utils/storage.ts:36-40 | the entry becomes the encoded listed array without any configuration with the id |
| Storage.Store.Get | src/utils/storage.ts:45-50 | returns the first listed configuration with the id and changes nothing |
| RequestCache.LatestIsNotPrefixed | src/utils/requestCache.ts:21-22 | the latest key does not start with the per-prompt prefix, so the `key !== LATEST_CACHE_KEY` test of the cleanup never excludes anything |
| RequestCache.KeyOfIsNotLatest | src/utils/requestCache.ts:21-22 | no prompt id produces the latest key |
| RequestCache.LookupNull | src/utils/requestCache.ts:54-87 | a read is `null` for a missing or empty entry and for one that does not decode, and is the decoded record otherwise |
| RequestCache.Entries | src/utils/requestCache.ts:122-133 | the collected items are exactly the decodable entries under per-prompt keys other than the latest key, each with its own timestamp |
| RequestCache.EntriesDistinct | src/utils/requestCache.ts:122-133 | collecting over keys listed once each gives items with distinct keys |
| RequestCache.EntriesDistinctPrefix | src/utils/requestCache.ts:124-133 | the same, with the last key split off |
| RequestCache.Insert | src/utils/requestCache.ts:136 | one step of the sort: the result is a permutation of the entries plus the new one |
| RequestCache.InsertSorted | src/utils/requestCache.ts:136 | inserting into a newest-first list keeps it newest first |
| RequestCache.InsertDistinct | src/utils/requestCache.ts:136 | inserting an entry with a fresh key keeps the keys distinct |
| RequestCache.SortDesc | src/utils/requestCache.ts:136 | the sort is a permutation of its input |
| RequestCache.SortDescProperties | src/utils/requestCache.ts:136 | the sorted items are in descending timestamp order and keep distinct keys |
| RequestCache.Cut | src/utils/requestCache.ts:139 | `slice(MAX_CACHE_ITEMS)` starts at ten or at the end, whichever comes first |
| RequestCache.DoomedAreDecodedCacheEntries | src/utils/requestCache.ts:118-143 | every key the cleanup deletes is a stored per-prompt entry that decodes; the latest entry, other keys and undecodable entries are never deleted |
| RequestCache.SortedFacts | src/utils/requestCache.ts:122-136 | the sorted cache items are newest first, have distinct keys, and hold exactly the collected entries |
| RequestCache.KeptCount | src/utils/requestCache.ts:139 | the cleanup keeps min(10, number of cache items) distinct per-prompt entries |
| RequestCache.RemainingAreKept | src/utils/requestCache.ts:139-142 | a decodable per-prompt entry that is not deleted is one of the ten kept |
| RequestCache.KeptRemain | src/utils/requestCache.ts:139-142 | a kept entry is a decodable per-prompt entry that is not deleted |
| RequestCache.KeptNewer | src/utils/requestCache.ts:136-142 | no kept entry is older than a deleted one |
| RequestCache.KeySetAppend | src/utils/requestCache.ts:140-142 | deleting one more item removes one more key |
| RequestCache.KeySetSize | src/utils/requestCache.ts:139 | items with distinct keys name as many keys as there are items |
| RequestCache.Written | src/utils/requestCache.ts:39-45 | the two writes store the record under the prompt's key and under the latest key and change no other entry |
| RequestCache.NewestNotDoomed | src/utils/requestCache.ts:118-143 | a decodable per-prompt entry strictly newer than every other such entry survives the cleanup |
| RequestCache.SaveKeepsRecord | src/utils/requestCache.ts:28-49 | after a save the record is read back under the latest key, and under the prompt's key when it is strictly the newest decodable entry |
| RequestCache.Store.constructor | src/utils/requestCache.ts:1 | local storage starts with the given entries |
| RequestCache.Store.CollectEntries | src/utils/requestCache.ts:122-133 | the first loop returns the collected entries in key order and changes nothing |
| RequestCache.Store.RemoveEntries | src/utils/requestCache.ts:140-142 | the delete loop removes exactly the keys of the items to delete |
| RequestCache.Store.Cleanup | src/utils/requestCache.ts:118-143 | storage afterwards is storage before minus the keys of the sorted items past the tenth |
| RequestCache.Store.SaveRequestResult | src/utils/requestCache.ts:28-49 | storage afterwards is the two writes followed by the cleanup |
| RequestCache.Store.GetRequestResult | src/utils/requestCache.ts:54-70 | returns the decoded record under the prompt's key, or `null`; changes nothing |
| RequestCache.Store.GetLatestRequestResult | src/utils/requestCache.ts:75-87 | returns the decoded record under the latest key, or `null`; changes nothing |
| RequestCache.Store.ClearRequestResult | src/utils/requestCache.ts:92-100 | the prompt's entry is removed, and the latest entry too when it decodes to a record of that prompt; every other entry keeps its value |
| RequestCache.Store.ClearAllRequestResults | src/utils/requestCache.ts:105-113 | exactly the per-prompt keys and the latest key are removed; every other entry keeps its value |
| CommandResult.FullCommand | src/components/CommandResult.tsx:23-24 | without arguments the full command is the command line; with some, it is the command line, one space and the arguments joined by single spaces |
| CommandResult.FullCommandOneArg | src/components/CommandResult.tsx:23-24 | one argument adds exactly one space and that argument |
| CommandResult.ShownIsTrimmed | src/components/CommandResult.tsx:39-40 | a stream is shown exactly when it is present and not blank, and what is shown is the trimmed, non-empty stream |
| CommandResult.WithinConcat | src/components/CommandResult.tsx:27-62 | joining two runs of blocks with ranks in a range keeps the ranks in that range |
| CommandResult.IncreasingConcat | src/components/CommandResult.tsx:27-62 | two runs with increasing ranks, the first ranked below the second, make one increasing run |
| CommandResult.LayoutOrder | src/components/CommandResult.tsx:37-62 | the blocks after the exit code come in a fixed order, each kind at most once |
| CommandResult.PartWithin | src/components/CommandResult.tsx:45-61 | a block behind an `if` is a run of at most one block |
| CommandResult.SuccessOrder | src/components/CommandResult.tsx:38-48 | on success stdout (or its placeholder) comes before stderr |
| CommandResult.FailureOrder | src/components/CommandResult.tsx:50-62 | on failure the error comes first, then stderr, then stdout |
| CommandResult.FailureFront | src/components/CommandResult.tsx:51-57 | on failure the error block comes before the stderr block |
| CommandResult.SectionsOrder | src/components/CommandResult.tsx:27-62 | the report opens with the heading and the command block, and every later block kind appears at most once, in the component's order |
| CommandResult.ExitCodeShown | src/components/CommandResult.tsx:33-35 | the exit-code block appears exactly when the exit code is defined, and then holds that code |
| CommandResult.LayoutContent | src/components/CommandResult.tsx:37-62 | given the shown streams, which output, placeholder and error blocks the layout holds, in both directions |
| CommandResult.SectionsFromContent | src/components/CommandResult.tsx:27-62 | the same for the whole report, since the opening blocks hold none of them |
| CommandResult.SectionsContent | src/components/CommandResult.tsx:37-62 | on success stdout always has a block, the placeholder when it is blank; the placeholder never appears on failure; output blocks hold the trimmed stream and appear only when it has text; the error block holds the error as given and appears only on failure with a non-empty error |
| CommandResult.EmitJoin | src/components/CommandResult.tsx:27-61 | appending two runs of blocks with `+=` is appending the first run, then the second |
| CommandResult.EmitOne | src/components/CommandResult.tsx:27-61 | appending one block appends its text |
| CommandResult.EmitPart | src/components/CommandResult.tsx:45-61 | a guarded `+=` appends the block's text exactly when the guard holds |
| CommandResult.Markdown | src/components/CommandResult.tsx:22-62 | the component's `markdown` string is the text of the report's blocks in order |
| CommandResult.Append | src/components/CommandResult.tsx:27-62 | the successive `+=`, given the trimmed streams, build the text of the blocks in order |
| CommandResult.HeadText | src/components/CommandResult.tsx:27-35 | the opening text is the heading, the command block and, when defined, the exit-code block |
| CommandResult.AppendSuccess | src/components/CommandResult.tsx:38-48 | the success branch appends the text of the success layout |
| CommandResult.AppendFailure | src/components/CommandResult.tsx:50-62 | the failure branch appends the text of the failure layout |
| RequestResult.FormatDataCases | src/components/RequestResult.tsx:19-33 | `formatData` gives "" for `undefined` and `null`, a string unchanged, and any other value's JSON encoding, or `String(data)` when encoding throws; these are the cases of `RequestResult.FormatData` |
| RequestResult.Texts | src/components/RequestResult.tsx:37-91 | the rendered lines correspond one to one, in order, to the pushed lines |
| RequestResult.InfoShape | src/components/RequestResult.tsx:39-55 | the report opens with the success or failure heading, the request heading, the method and the URL; the status line, with the status text or "", follows exactly when the status is defined; then a blank line |
| RequestResult.PartsContent | src/components/RequestResult.tsx:39-91 | each part of the report holds only its own kinds of line |
| RequestResult.StatusShown | src/components/RequestResult.tsx:51-53 | a status line is pushed exactly when the status is defined |
| RequestResult.ErrorShown | src/components/RequestResult.tsx:58-64 | the error section is pushed exactly when the request failed with a non-empty error, and it then holds the error unchanged |
| RequestResult.HeadersShown | src/components/RequestResult.tsx:67-73 | the headers section is pushed exactly when there are headers, and it then holds their JSON encoding |
| RequestResult.DataShown | src/components/RequestResult.tsx:76-91 | the data section is pushed exactly when data is neither `undefined` nor `null`; it ends the report with heading, fence (tagged `json` exactly for objects and arrays), formatted data and closing fence; without data the report ends with a blank line |
| RequestResult.TextsAppend | src/components/RequestResult.tsx:37-91 | rendering one more pushed line appends its text |
| RequestResult.Push | src/components/RequestResult.tsx:41 | a `sections.push` keeps `sections` the rendering of the lines pushed so far |
| RequestResult.BuildMarkdown | src/components/RequestResult.tsx:36-94 | `buildMarkdown` returns the rendered lines of the report joined with newlines |
| RequestResult.PushError | src/components/RequestResult.tsx:58-64 | the error pushes append the error block |
| RequestResult.PushHeaders | src/components/RequestResult.tsx:67-73 | the header pushes append the headers block |
| RequestResult.PushData | src/components/RequestResult.tsx:76-91 | the data pushes append the data block |
| MarkdownBuilder.ClampLevel | src/utils/markdownBuilder.ts:27 | the title level is forced into 1..6: levels in range are kept, lower ones become 1, higher ones 6 |
| MarkdownBuilder.Hashes | src/utils/markdownBuilder.ts:27 | the prefix has exactly as many characters as the level, all of them `#` |
| MarkdownBuilder.EmojiPrefix | src/utils/markdownBuilder.ts:28 | a present, non-empty emoji is followed by one space; a missing or empty one contributes nothing (JavaScript truthiness) |
| MarkdownBuilder.TitleLineShape | src/utils/markdownBuilder.ts:26-30 | a title line is the clamped number of `#`, one space, the emoji prefix and the text, and ends with a line break |
| MarkdownBuilder.HeadingIsLevelTwo | src/utils/markdownBuilder.ts:38-41 | a heading is exactly a level-2 title with the same text and emoji |
| MarkdownBuilder.ListLines | src/utils/markdownBuilder.ts:72-75 | one section per item, in order, each the item behind "- " |
| MarkdownBuilder.InlineCode | src/utils/markdownBuilder.ts:101-103 | the code wrapped in one backtick on each side, unchanged inside |
| MarkdownBuilder.Bold | src/utils/markdownBuilder.ts:110-112 | the text wrapped in "**" on each side, unchanged inside |
| MarkdownBuilder.Italic | src/utils/markdownBuilder.ts:119-121 | the text wrapped in "_" on each side, unchanged inside |
| MarkdownBuilder.RenderedAppend | src/utils/markdownBuilder.ts:140-142 | appending a section to the builder appends it to the rendered text, behind a line break unless the builder was empty |
| MarkdownBuilder.RenderedEmpty | src/utils/markdownBuilder.ts:140-142 | an empty builder renders as the empty string |
| MarkdownBuilder.RenderedCodeBlock | src/utils/markdownBuilder.ts:49-55 | a code block renders as the opening fence with its language, the content and the closing fence, each on its own line |
| MarkdownBuilder.Builder.constructor | src/utils/markdownBuilder.ts:17 | a new builder holds no sections |
| MarkdownBuilder.Builder.Title | src/utils/markdownBuilder.ts:26-30 | appends exactly one section, the title line, and returns the same builder |
| MarkdownBuilder.Builder.Heading | src/utils/markdownBuilder.ts:38-41 | appends exactly one section, the level-2 heading line, and returns the same builder |
| MarkdownBuilder.Builder.CodeBlock | src/utils/markdownBuilder.ts:49-55 | appends exactly three sections: the fence with the language or nothing, the content, the closing fence |
| MarkdownBuilder.Builder.Text | src/utils/markdownBuilder.ts:62-65 | appends the content as one section |
| MarkdownBuilder.Builder.List | src/utils/markdownBuilder.ts:72-75 | appends one "- item" section per item, in order, and nothing else |
| MarkdownBuilder.Builder.ListItem | src/utils/markdownBuilder.ts:82-85 | appends one "- item" section |
| MarkdownBuilder.Builder.Separator | src/utils/markdownBuilder.ts:91-94 | appends one empty section, a blank line once rendered |
| MarkdownBuilder.Builder.If | src/utils/markdownBuilder.ts:129-134 | the callback's change is applied exactly when the condition holds; otherwise the sections are unchanged |
| MarkdownBuilder.Builder.Build | src/utils/markdownBuilder.ts:140-142 | the rendered text is the sections joined with line breaks; the builder is unchanged |
| Results.LineIsTemplateMode | src/utils/results.ts:9-15 | a result line is the key, ": " and the value as template-mode conversion shows it: lists joined with ", ", booleans as 是/否, strings as they are; the line is the function `Results.Line` |
| Results.Lines | src/utils/results.ts:8-16 | one line per entry, in entry order, for that entry's key and value |
| Results.FormatFormValues | src/utils/results.ts:5-19 | the text is the entries' lines, in entry order, joined with line breaks |
| Results.FormatSplitsIntoLines | src/utils/results.ts:5-19 | when no line holds a line break, splitting the text at line breaks gives back exactly the lines; an empty form gives "" |
| Results.HandleFormSubmit | src/utils/results.ts:22-46 | the text copied is the formatted form, and the result is true exactly when the clipboard copy succeeds |
| ValueConverter.ValueToTemplateString | src/utils/valueConverter.ts:9-31 | lists join with ", ", strings pass unchanged, booleans render as 是/否 unless the field is a checkbox with a `trueValue`/`falseValue` override for that value, which is then used |
| ValueConverter.ValueToCommandString | src/utils/valueConverter.ts:39-61 | as template mode, with "true"/"false" as the default boolean literals |
| ValueConverter.ModesAgreeExceptDefaultLiterals | src/utils/valueConverter.ts:9-61 | the two modes give the same text for every value except a boolean whose literal is not overridden |
| ValueConverter.OverridesNeedCheckbox | src/utils/valueConverter.ts:19 | for a field that is not a checkbox, both modes give what they give without any field configuration |
| ValueConverter.OverrideVerbatim | src/utils/valueConverter.ts:19-25 | a checkbox override is rendered verbatim in both modes, even when it is the empty string |
| Template.TemplateTextIsPlainTemplateMode | src/utils/template.ts:26-51 | for a visible field with a value, the callback gives what template-mode conversion gives without a field configuration: no checkbox override applies |
| Template.TemplateToken | src/utils/template.ts:12-54 | a template that is a single `{{name}}` becomes "" when the field is hidden or has no value, and otherwise the joined list, 是/否, or the string |
| Template.TokenAvoidsBuiltin | src/utils/template.ts:22-23 | the launcher tokens `{selection}`/`{clipboard}` never occur inside `{{name}}` for any other word name, so the first pass cannot disturb such a token |
| Template.BuiltinPassSeesUserToken | src/utils/template.ts:22-26 | the launcher pass runs first and matches inside `{{selection}}`, so that text becomes `{S}` for selection S and a field named `selection` is never substituted |
| Template.SelectionTextScannedForTokens | src/utils/template.ts:22-26 | text arriving from the selection is scanned by the `{{name}}` pass: a selection `{{x}}` becomes the value of field x |
| Template.HyphenatedNameUntouched | src/utils/template.ts:26 | `{{a-b}}` is not a `\w+` token and stays as it is |
| Template.PlainTextUnchanged | src/utils/template.ts:12-54 | text without `{selection}`, `{clipboard}` or `{{` is returned unchanged; `Template.ReplaceTemplate` is the specification of `replaceTemplate` (src/utils/template.ts:12-53): the `{selection}` pass, the `{clipboard}` pass, then the `\w+` pass |
| Placeholders.IdentRun | src/utils/variableReplacer.ts:7 | the name run is the longest prefix made of name characters: every character in it is one, and the character after it is not |
| Placeholders.TokenLength | src/utils/variableReplacer.ts:7 | a token found at the start is at least five characters (`{{`, a non-empty name, `}}`) and lies within the text |
| Placeholders.IdentRunOfName | src/utils/variableReplacer.ts:7 | a name followed by a non-name character has a name run of exactly its own length |
| Placeholders.TokenOfName | src/utils/variableReplacer.ts:7 | `{{name}}` at the start of a text is a token whose length is the name's plus four, whatever follows |
| Placeholders.TokenThenRest | src/utils/variableReplacer.ts:52-70 | a token is replaced by the callback's text for its name, and the scan resumes after the token: the inserted text is never rescanned |
| Placeholders.CharThenRest | src/utils/variableReplacer.ts:52 | a character that does not start a token is copied and the scan moves on by one |
| Placeholders.NoTokenUnchanged | src/utils/variableReplacer.ts:52 | a text with no token at any position is returned unchanged |
| Placeholders.NoBracesUnchanged | src/utils/variableReplacer.ts:52 | a text with no `{{` is returned unchanged |
| Placeholders.HyphenOnlyInWideGrammar | src/utils/variableReplacer.ts:7 | `{{a-b}}` is a token for `[\w-]+` but is left alone by `\w+` |
| Placeholders.HyphenWideToken | src/utils/variableReplacer.ts:7 | the `[\w-]+` pass replaces `{{a-b}}` by the callback's text for `a-b` |
| Placeholders.HyphenStopsWord | src/utils/template.ts:26 | under `\w+`, no token starts at `{{a-b}}` |
| Placeholders.HyphenNotWordToken | src/utils/template.ts:26 | the `\w+` pass returns `{{a-b}}` unchanged |
| Placeholders.SubstituteCongruent | src/utils/variableReplacer.ts:52 | the pass depends only on what the callback returns for each name |
| Placeholders.IdentRunWithoutHyphen | src/utils/variableReplacer.ts:7 | without hyphens the two grammars give the same name run |
| Placeholders.GrammarsAgreeWithoutHyphen | src/utils/variableReplacer.ts:7 | on a text without hyphens the `\w+` and `[\w-]+` passes give the same result |
| VariableReplacer.LastById | src/utils/variableReplacer.ts:46-49 | the configuration found is absent exactly when no input has the id; otherwise it has the id and no later input has it: the last one wins |
| VariableReplacer.BuildInputMap | src/utils/variableReplacer.ts:46-49 | the map holds exactly the ids some input has, each mapped to the last input carrying it |
| VariableReplacer.ReplaceUserVariables | src/utils/variableReplacer.ts:38-71 | the result is one `[\w-]+` substitution pass with the callback that looks the field up in the map built from the inputs; that pass is the specification function `VariableReplacer.UserVariables` |
| VariableReplacer.TokenReplaced | src/utils/variableReplacer.ts:52-70 | a token for a hidden field, or a visible one without a value, is removed; otherwise it becomes the converter's text for the value and the last input with that id; the text after it is substituted on its own |
| VariableReplacer.InsertedTokenStaysLiteral | src/utils/variableReplacer.ts:52-70 | a value whose text is itself `{{b}}` is inserted literally and not substituted again |
| VariableReplacer.NoPlaceholderUnchanged | src/utils/variableReplacer.ts:52 | a template with no `{{` is returned unchanged |
| VariableReplacer.ReplaceRaycastVariables | src/utils/variableReplacer.ts:81-95 | the result is `{selection}` replaced everywhere by the selection or "", then `{clipboard}` by the clipboard or ""; that is the specification function `VariableReplacer.RaycastVariables` |
| VariableReplacer.SelectionTextScannedByClipboardPass | src/utils/variableReplacer.ts:89-92 | text inserted for `{selection}` is scanned by the clipboard pass: a selection `{clipboard}` ends up as the clipboard text |
| VariableReplacer.SelectionReplacementCases | src/utils/variableReplacer.ts:89 | a missing selection removes the token, and a selection `$&` re-inserts the matched token, as string replacement patterns do |
| VariableReplacer.NoRaycastVariableUnchanged | src/utils/variableReplacer.ts:81-95 | content mentioning neither variable is returned unchanged |
| Deeplink.ValidateType | src/utils/deeplinkValidator.ts:97-147 | a value passes exactly when it is an array of strings for `multiselect`, a string for `select`, `text`, `textarea` and `selectInFolder`, or a boolean for `checkbox`; an unknown type never passes |
| Deeplink.StringTypeCheck | src/utils/deeplinkValidator.ts:122-127 | a string-typed field accepts exactly the strings |
| Deeplink.AsValue | src/utils/deeplinkValidator.ts:63 | a value that passed the type check becomes a form value that stands for exactly that dynamic value |
| Deeplink.InvalidValues | src/utils/deeplinkValidator.ts:160-165 | a string offends when it is no option value, a boolean always offends, and a list's offenders are exactly its elements that are no option value |
| Deeplink.NotIn | src/utils/deeplinkValidator.ts:163-165 | the kept elements are exactly those not among the option values |
| Deeplink.OptionRule | src/utils/deeplinkValidator.ts:152-175 | with an option list, a value passes exactly when the string, or every element of the list, is some option's value; a rejection lists the offenders after "无效选项: " joined with ", "; this is what `Deeplink.ValidateOptions` decides |
| Deeplink.ValueSteps | src/utils/deeplinkValidator.ts:26-64 | one assignment per field, in field order, under the field's id, of what that iteration stores |
| Deeplink.WarningSteps | src/utils/deeplinkValidator.ts:26-64 | one warning step per field, in field order, under the field's id |
| Deeplink.MergeOne | src/utils/deeplinkValidator.ts:27-63 | one iteration stores the iteration's value, when it has one, and the iteration's warning, when it has one, under the field's id, and changes nothing else |
| Deeplink.ValidateAndMergeInputs | src/utils/deeplinkValidator.ts:19-70 | the values and warnings are the per-field assignments applied in field order, later fields overwriting earlier ones, and the completeness flag is the required-field check on the merged values |
| Deeplink.AbsentTakesDefault | src/utils/deeplinkValidator.ts:30-36 | a field the deeplink does not supply takes its default, or no key, with no warning; the default is `Deeplink.GetDefaultValue` (src/utils/deeplinkValidator.ts:75-92), whose precedence `FormState.DefaultPrecedence` states |
| Deeplink.RejectedFallsBack | src/utils/deeplinkValidator.ts:39-59 | a value that fails the type or the option check leaves a warning and the field's default |
| Deeplink.AcceptedVerbatim | src/utils/deeplinkValidator.ts:62-63 | a value that passes both checks is stored as supplied, with no warning |
| Deeplink.MergedAt | src/utils/deeplinkValidator.ts:19-70 | an id has a warning exactly when some field with that id was rejected, has a value exactly when some field with that id stored one, and holds what the last such field stored |
| Deeplink.UnknownKeysIgnored | src/utils/deeplinkValidator.ts:27 | deeplink keys that name no field change neither the values nor the warnings |
| Deeplink.CompletenessExamples | src/utils/deeplinkValidator.ts:180-194 | a required checkbox set to `false` counts as filled; an empty list or a missing key does not |
| Deeplink.CompletenessIsRequiredCheck | src/utils/deeplinkValidator.ts:180-194 | completeness holds exactly when the required-field check over every field, hidden ones included, finds no blank field; the flag is the predicate `Deeplink.CheckCompleteness` |
| FormState.DefaultOptionValues | src/components/PromptForm.tsx:69-73 | the values of the options flagged as default, in order: empty exactly when none is flagged, first the first flagged one, and containing exactly the flagged values |
| FormState.DefaultPrecedence | src/components/PromptForm.tsx:62-79 | the explicit default wins; otherwise a `multiselect` field gets every default option value in order and any other field the first default option's value; a field with neither gets no key |
| FormState.InitSteps | src/components/PromptForm.tsx:65-79 | one assignment per field, in field order, of that field's default or nothing |
| FormState.InitialValues | src/components/PromptForm.tsx:64-81 | the initial values are the per-field defaults applied in field order, later fields with the same id overwriting earlier ones |
| FormState.InitialValuesAt | src/components/PromptForm.tsx:64-81 | an id has an initial value exactly when some field with that id has a default, and its value is the last such field's default |
| FormState.BlankRequiredIff | src/components/PromptForm.tsx:126-146 | an id is reported exactly when some listed field with that id is required and its value is missing, "" or an empty list |
| FormState.MessagesFor | src/components/PromptForm.tsx:139 | the error map has exactly the reported ids, each with the message 此项为必填项 |
| FormState.RequiredErrors | src/components/PromptForm.tsx:126-146 | the errors are the required message under exactly the blank required fields, and the result is true exactly when every required field is not blank |
| FormState.NoBlankRequired | src/components/PromptForm.tsx:126-146 | no field is reported exactly when every required field has a value that is not blank |
| FormState.FieldChangeLocal | src/components/DynamicForm.tsx:38-55 | a change sets only its own field's value, and removes only its own error, and only when that error is a non-empty message |
| ById.FindIndex | src/utils/aiStorage.ts:86 | -1 exactly when no record has the id; otherwise the first position whose record has it |
| ById.Find | src/utils/storage.ts:49 | nothing exactly when no record has the id; otherwise the record at the first position with it |
| ById.Without | src/utils/storage.ts:38 | the result is no longer than the list, keeps only records from the list whose id differs, and keeps every such record |
| ById.WithoutAppend | src/utils/storage.ts:38 | filtering distributes over concatenation, so the records kept stay in their relative order |
| ById.WithoutAbsent | src/utils/storage.ts:38 | removing an id no record has leaves the list unchanged |
| ById.WithoutThenFind | src/utils/storage.ts:36-50 | after a removal no record with that id can be found |
| Writes.ApplyKeys | src/utils/deeplinkValidator.ts:26-64 | after a sequence of conditional assignments a key is present exactly when it was before or some step assigned it |
| Writes.ApplyLast | src/utils/deeplinkValidator.ts:26-64 | an assigned key holds the value of its last assignment |
| Writes.ApplyUntouched | src/utils/deeplinkValidator.ts:26-64 | a key no step assigns keeps its presence and its value |
| Writes.LastWriteExists | src/utils/deeplinkValidator.ts:26-64 | a key that was assigned at all has a last assignment |
| PromptTypes.EffectiveTimeout | src/utils/commandExecutor.ts:222 | an absent or zero timeout becomes 30000 ms; any other value is kept |
| ExtraInputs.FirstMatch | src/utils/extraInputs.ts:30 | the option found has the selected value and is the first such option; nothing is found exactly when no option has that value |
| ExtraInputs.AddAll | src/utils/extraInputs.ts:32 | the set afterwards is the set before plus every listed id |
| ExtraInputs.GetVisibleInputIds | src/utils/extraInputs.ts:4-50 | the two loops compute the seed of non-conditional fields followed by the in-order reveal pass over every field; that is the specification function `ExtraInputs.VisibleIds`, about which `ExtraInputs.PassIff` states which ids are visible |
| ExtraInputs.RevealStep | src/utils/extraInputs.ts:18-47 | one iteration adds what the field reveals given its value when the field is already in the set, and nothing otherwise |
| ExtraInputs.RevealList | src/utils/extraInputs.ts:38-45 | the loop over a multi-selection adds what the first matching option of each selected element reveals |
| ExtraInputs.SeedIff | src/utils/extraInputs.ts:11-15 | an id is seeded exactly when some field with that id has a falsy `isExtraInput` |
| ExtraInputs.PassGrows | src/utils/extraInputs.ts:18-47 | the second loop only adds ids: nothing is ever removed |
| ExtraInputs.NonExtraVisible | src/utils/extraInputs.ts:4-50 | every field that is not conditional is visible, whatever the values |
| ExtraInputs.PassIff | src/utils/extraInputs.ts:18-47 | an id ends up visible exactly when it was seeded or is revealed by a field that was already visible when the loop reached it; a field revealed later in the loop reveals nothing |
| ExtraInputs.ListRevealsIff | src/utils/extraInputs.ts:37-46 | a multi-selection reveals exactly the ids the first matching option of some selected element lists |
| ExtraInputs.FalsyRevealsNothing | src/utils/extraInputs.ts:23-26 | a field with no option list, or whose value is missing, "" or `false`, reveals nothing |
| ExtraInputs.CascadeOnlyForward | src/utils/extraInputs.ts:18-47 | a chain a reveals b reveals c cascades fully when listed in that order, and stops at b when b is listed before a |
| ExtraInputs.UnknownRevealKept | src/utils/extraInputs.ts:32 | an id revealed by an option is in the set even when no field has that id |
| ExtraInputs.FilterById | src/utils/extraInputs.ts:58 | the result keeps exactly the items whose id is in the set, and is no longer than the list |
| ExtraInputs.FilterByIdAppend | src/utils/extraInputs.ts:58 | filtering distributes over concatenation, so the visible fields stay in their configured order |
| ExtraInputs.GetVisibleInputs | src/utils/extraInputs.ts:53-59 | the fields returned are exactly the configured fields whose id is visible |
| DynamicForm.MultiChoiceName | src/components/DynamicForm.tsx:26 | the type string "MultiChoice" names the `MultiChoice` type and no other |
| DynamicForm.InitValuesAt | src/components/DynamicForm.tsx:17-35 | an id gets an initial value exactly when some field with it has a default, and it is the default of the last such field |
| DynamicForm.DynamicFormState.constructor | src/components/DynamicForm.tsx:13-35 | the form starts with the initial values computed from the field defaults and with no errors |
| DynamicForm.DynamicFormState.HandleFieldChange | src/components/DynamicForm.tsx:38-55 | sets the field's value and drops its error only when one is recorded and non-empty |
| DynamicForm.DynamicFormState.ValidateForm | src/components/DynamicForm.tsx:58-77 | replaces the errors by the required message under each visible, required, blank field, leaves the values alone, and succeeds exactly when no error is recorded |
| DynamicForm.DynamicFormState.HandleSubmit | src/components/DynamicForm.tsx:80-89 | the form text is copied only when validation passes, and it is the formatted form; the view closes exactly when it was copied and the copy succeeded |
| DynamicForm.ValidationErrorIff | src/components/DynamicForm.tsx:58-77 | a field has an error exactly when its value is blank and some field with that id is required and visible |
| PromptForm.FieldAsWritten | src/components/PromptForm.tsx:151 | as written, the visibility algorithm sees the field's id and `isExtraInput` flag but no option list, since it reads `values` and a prompt field keeps its options under `options` |
| PromptForm.Field | src/components/PromptForm.tsx:151 | as intended, the visibility algorithm sees the field's id, its flag and, in order, each option's value and `extraInputs` |
| PromptForm.VisibleInputs | src/components/PromptForm.tsx:129 | the fields returned are exactly the configured fields whose id is visible; this is the corrected option reading of the first "## Findings" row: as written the source reads `input.values` (src/utils/extraInputs.ts:24) and only fields that are not conditional are returned (`PromptForm.AsWrittenRevealsNothing`) |
| PromptForm.PassWithoutChoices | src/components/PromptForm.tsx:151 | when no field shows an option list, the reveal loop adds nothing to the set |
| PromptForm.AsWrittenRevealsNothing | src/components/PromptForm.tsx:151 | as written, the visible ids are exactly the ids of non-conditional fields, whatever the values: no option ever reveals a conditional field |
| PromptForm.NotesRevealedOnlyAsIntended | src/components/PromptForm.tsx:151 | selecting an option whose `extraInputs` names a required field reveals it in the intended reading and not as written |
| PromptForm.InitValuesAt | src/components/PromptForm.tsx:63-82 | an id whose last field with a default is field i starts with field i's default |
| PromptForm.InitValuesKeys | src/components/PromptForm.tsx:63-82 | an id starts with a value exactly when some field with that id has a default |
| PromptForm.SavedInputs | src/components/PromptForm.tsx:87-90 | the fields keep their order and everything but `default`, which becomes the submitted value or undefined |
| PromptForm.SaveThenInitRestores | src/components/PromptForm.tsx:85-103 | saving the submitted values as defaults and initialising again gives back every submitted value of a configured field |
| PromptForm.ReplaceById | src/components/PromptForm.tsx:397-399 | every field with the edited field's id is replaced by it and every other field is kept, in place |
| PromptForm.ReplaceByIdStable | src/components/PromptForm.tsx:397-399 | replacing twice is replacing once, and the ids stay as they were |
| PromptForm.InputsAsStringHasNoBrace | src/components/PromptForm.tsx:171-178 | the text the field list turns into contains neither `{` nor `$` |
| PromptForm.LauncherTokens | src/components/PromptForm.tsx:171-178 | for launcher texts without braces or dollars, `{selection}` alone renders the selection slot and `{clipboard}` alone the clipboard slot |
| PromptForm.GeneratePromptAsWrittenSlots | src/components/PromptForm.tsx:171-178 | as written, `{selection}` in the prompt renders the field list as "[object Object]" items and `{clipboard}` renders the selected text |
| PromptForm.GeneratePromptSlots | src/components/PromptForm.tsx:150-179 | as intended, `{selection}` renders the selected text and `{clipboard}` the clipboard |
| PromptForm.RenderSelection | src/components/PromptForm.tsx:326-334 | as written, `{selection}` in the copied command or the failed-request URL renders the field list; as intended it renders "" |
| PromptForm.CopiedCommandShape | src/components/PromptForm.tsx:326-339 | the copied command starts with the rendered command line; an empty argument list still adds one space; without `args` the command line is the whole text |
| PromptForm.PromptFormState.constructor | src/components/PromptForm.tsx:52-82 | the form starts with the given configuration, the initial values its fields' defaults give, and no errors |
| PromptForm.PromptFormState.Init | src/components/PromptForm.tsx:63-82 | the form values become the initial values of the current configuration |
| PromptForm.PromptFormState.HandleFieldChange | src/components/PromptForm.tsx:106-123 | sets the field's value and drops its error only when one is recorded and non-empty |
| PromptForm.PromptFormState.ValidateForm | src/components/PromptForm.tsx:126-146 | the errors become the required message under each visible, required, blank field, and the result is true exactly when there is none; this uses the corrected option reading of the first "## Findings" row: as written the source reads `input.values` (src/utils/extraInputs.ts:24), finds no options, and only fields that are not conditional are validated (`PromptForm.AsWrittenRevealsNothing`) |
| PromptForm.PromptFormState.SaveFormValues | src/components/PromptForm.tsx:63-103 | the save succeeds exactly when the configuration has a non-empty `filePath` (`ConfigWriter.PathMissing`, src/utils/configWriter.ts:37-39) and the write succeeds; then the configuration becomes the saved one, with every default replaced by the submitted value and `lastUseTime` set to now, and `setConfig` re-runs the `[config]` effect, so the form values become the initial values of the new configuration; when the save throws, both stay as they were and the primary or secondary action stops (src/components/PromptForm.tsx:191, 303) |
| PromptForm.PromptFormState.HandleSaveInput | src/components/PromptForm.tsx:395-429 | the save succeeds exactly when the configuration has a non-empty `filePath` and the write succeeds; then the edited field replaces the one with its id and the form values are initialised again from the new configuration; when the save throws, the configuration and the values stay as they were |
| PromptForm.ValidationErrorIff | src/components/PromptForm.tsx:126-146 | a field has an error exactly when it is visible, its value is blank and some field with that id is required; a `false` checkbox is never blank; this uses the corrected option reading of the first "## Findings" row: as written the source reads `input.values` (src/utils/extraInputs.ts:24), finds no options, and only fields that are not conditional are validated (`PromptForm.AsWrittenRevealsNothing`) |
| PromptForm.ErrorIsVisibleRequired | src/components/PromptForm.tsx:131-141 | a recorded error belongs to a visible, blank field with that id that is required |
| PromptForm.VisibleRequiredIsError | src/components/PromptForm.tsx:131-141 | a visible, required, blank field is among those `validateForm` reports |
| Prompts.FilterInputs | src/config/prompts.ts:133-142 | no more entries than given, and every entry kept is a truthy object with `id`, `label` and `type` keys |
| Prompts.FilterInputsContents | src/config/prompts.ts:133-142 | an entry is kept exactly when it is one of the given entries and passes the key test |
| Prompts.NormaliseOption | src/config/prompts.ts:148-153 | an option that is `null` or `undefined` throws and nothing else does; the result is the record of its value, its label or else its value, its `isDefault` and its `extraInputs` |
| Prompts.NormalisedOptionShape | src/config/prompts.ts:148-153 | a normalised option has exactly the keys value, label, isDefault and extraInputs; its value is kept and its label is the value when the label is missing or empty |
| Prompts.NormalisedOptionKeys | src/config/prompts.ts:148-153 | a normalised option has exactly the four keys value, label, isDefault and extraInputs |
| Prompts.NormalisedOptionValues | src/config/prompts.ts:149-150 | a normalised option keeps its value, and its label falls back to the value when missing or empty |
| Prompts.NormaliseOptions | src/config/prompts.ts:148 | the options map succeeds exactly when no option throws, and then gives one normalised option per option, in order |
| Prompts.NormaliseInputKeeps | src/config/prompts.ts:143-157 | normalising an entry keeps every key and every value except `options`; an entry without truthy `options` is returned as it is |
| Prompts.FieldIndexSameKeys | src/config/prompts.ts:147 | two records with the same keys in the same order find a key at the same position |
| Prompts.FieldIndexSame | src/config/prompts.ts:147 | two records with the same keys and the same value under a key give the same value for it |
| Prompts.NormaliseAll | src/config/prompts.ts:143-157 | when no entry throws the result is one normalised entry per entry, in order; a failure comes from some entry that throws |
| Prompts.ValidateInputsShape | src/config/prompts.ts:127-158 | anything but an array gives no fields; an array gives one normalised entry per kept entry, in order, each still holding `id`, `label` and `type`; `Prompts.ValidateInputs` is the specification of `validateInputs` |
| Prompts.StringOptionsThrow | src/config/prompts.ts:147-148 | an entry whose `options` is a string makes the whole call throw, so the file that holds it is skipped |
| Prompts.RefAt | src/config/prompts.ts:20 | a reference found at a position has a name of at least one character and ends within the text |
| Prompts.RefAtFacts | src/config/prompts.ts:20 | a reference found opens with `![[`, closes with `]]` and holds no `]` in its name |
| Prompts.RefsFromMatch | src/config/prompts.ts:22 | after a match the scan resumes behind that match |
| Prompts.RefsFromSkip | src/config/prompts.ts:22 | where no reference starts the scan moves on by one character |
| Prompts.WellFormedMatch | src/config/prompts.ts:22 | a well-formed match in front of well-formed matches keeps them all well formed |
| Prompts.RefsWellFormed | src/config/prompts.ts:20-22 | every match is the text of a reference to a non-empty name without `]` |
| Prompts.RefAtShape | src/config/prompts.ts:20-26 | the match at a position is `![[`, the name and `]]`, with a non-empty name without `]` |
| Prompts.ResolveObsidianReferences | src/config/prompts.ts:14-65 | the loop with its recursive calls computes the reference resolution: matches in order, skipped when their file is on the chain or missing, otherwise the first occurrence replaced by the file's trimmed contents resolved with that file added to the chain; that resolution is the function `Prompts.Resolve`, whose cases `Prompts.UnresolvableLeftInPlace` and `Prompts.SingleRefResolved` state |
| Prompts.AllSkippedUnchanged | src/config/prompts.ts:24-39 | when every reference is skipped the text stays as it is |
| Prompts.UnresolvableLeftInPlace | src/config/prompts.ts:29-39 | references to missing files, or to files already on the chain, stay in the text verbatim; text without references is unchanged |
| Prompts.SingleRef | src/config/prompts.ts:20-22 | a reference on its own is exactly one match, with its name |
| Prompts.SingleRefStep | src/config/prompts.ts:24-62 | a text that is one reference resolves by exactly one step of the loop |
| Prompts.ReplaceWhole | src/config/prompts.ts:55-58 | replacing the whole text by a replacement without `$` gives the replacement |
| Prompts.SingleRefResolved | src/config/prompts.ts:41-58 | a text that is one reference to an existing file off the chain becomes that file's trimmed, resolved contents, when they hold no `$` |
| Prompts.TrimRefText | src/config/prompts.ts:43 | a reference's text has nothing for trimming to remove |
| Prompts.RefTextAvoids | src/config/prompts.ts:20 | any character other than `!`, `[` and `]` is in a reference's text only when it is in the name |
| Prompts.OnChainRefStays | src/config/prompts.ts:30-33 | a reference to a file already on the chain resolves to itself: cycles stop |
| Prompts.DollarsInRuleCollapse | src/config/prompts.ts:55-58 | a rule file holding `$$` is inserted as a single `$`, since the resolved text is used as a replacement pattern |
| Prompts.SingleRefExpands | src/config/prompts.ts:41-58 | a text that is one reference to a file off the chain becomes the file's resolved contents after replacement-pattern expansion |
| Prompts.DollarsTrimmed | src/config/prompts.ts:43 | `$$` has nothing for trimming to remove |
| Prompts.DollarsRuleResolved | src/config/prompts.ts:22 | the text `$$` holds no reference and resolves to itself |
| Prompts.DollarsExpand | src/config/prompts.ts:55-58 | `$$` in a replacement stands for one `$` |
| Prompts.ReplaceFirstWhole | src/config/prompts.ts:55-58 | replacing a whole text by a replacement gives the replacement's pattern expansion |
| Prompts.MarkdownFiles | src/config/prompts.ts:82-84 | every name kept ends with ".md" |
| Prompts.MarkdownFilesContents | src/config/prompts.ts:82-84 | a name is kept exactly when it is listed and ends with ".md" |
| Prompts.LoadFile | src/config/prompts.ts:86-118 | a loaded prompt's path is the directory joined with the file name and names an existing file that the parser accepts, and its title is the truthy `title` of the front matter |
| Prompts.LoadEach | src/config/prompts.ts:86-119 | no more prompts than files |
| Prompts.LoadEachContents | src/config/prompts.ts:86-119 | a prompt is in the result exactly when some file loads to it |
| Prompts.LoadAllContents | src/config/prompts.ts:70-122 | a prompt is loaded exactly when the directory exists and some ".md" entry of the listing loads to it; a missing directory gives nothing |
| Prompts.LoadPromptsFromDirectory | src/config/prompts.ts:70-122 | the loop computes the prompts of the ".md" files, in listing order, skipping the files that fail to load |
| InputTemplates.DefaultTemplateTypes | src/config/inputTemplates.ts:13-111 | there is exactly one default template for each of the six field types |
| InputTemplates.TextTemplateOk | src/config/inputTemplates.ts:14-22 | the text template has type "text" and a truthy id and label |
| InputTemplates.TextareaTemplateOk | src/config/inputTemplates.ts:24-32 | the textarea template has type "textarea" and a truthy id and label |
| InputTemplates.SelectTemplateOk | src/config/inputTemplates.ts:34-57 | the select template has type "select" and a truthy id and label |
| InputTemplates.MultiselectTemplateOk | src/config/inputTemplates.ts:59-83 | the multiselect template has type "multiselect" and a truthy id and label |
| InputTemplates.CheckboxTemplateOk | src/config/inputTemplates.ts:85-96 | the checkbox template has type "checkbox" and a truthy id and label |
| InputTemplates.SelectInFolderTemplateOk | src/config/inputTemplates.ts:98-110 | the folder template has type "selectInFolder" and a truthy id and label |
| InputTemplates.DefaultTemplatesWellFormed | src/config/inputTemplates.ts:13-111 | every default template names its own type and has a truthy id and label, so copying it alone passes the required-attribute check |
| InputTemplates.Overlay | src/config/inputTemplates.ts:121-131 | the loaded record covers every default type and every stored type, and each type holds the stored template when there is one and the default otherwise |
| InputTemplates.UpdateAsWritten | src/config/inputTemplates.ts:119-168 | after `updateInputTemplate` the stored record is the loaded record with the one type replaced; with a stored record the module defaults stay as they were, and without one `DEFAULT_TEMPLATES`, which the load handed out itself, has the type replaced too; `loadInputTemplates` is the function `InputTemplates.Loaded` (src/config/inputTemplates.ts:116-132) |
| InputTemplates.UpdateIntended | src/config/inputTemplates.ts:161-168 | the intended update: the stored record covers every built-in and every stored type plus the updated one, and holds the new template for that type |
| InputTemplates.RunAsWritten | src/config/inputTemplates.ts:161-175 | a session of updates and resets that starts with a stored record never changes the module defaults and keeps a stored record |
| InputTemplates.TemplateStore.constructor | src/config/inputTemplates.ts:7 | a new store has nothing saved, and the module defaults are the built-in templates |
| InputTemplates.TemplateStore.Save | src/config/inputTemplates.ts:137-146 | the saved record becomes the given templates; the module defaults are unchanged |
| InputTemplates.TemplateStore.Get | src/config/inputTemplates.ts:151-156 | a template is found exactly when the loaded record, the stored record spread over the current module defaults, has the type, and it is that record's template |
| InputTemplates.TemplateStore.Update | src/config/inputTemplates.ts:119-168 | the module defaults and the saved record change as `InputTemplates.UpdateAsWritten` says: with nothing stored the assignment also lands in `DEFAULT_TEMPLATES` |
| InputTemplates.TemplateStore.Reset | src/config/inputTemplates.ts:173-175 | the saved record becomes the module defaults as they now stand, which an earlier update may have changed |
| InputTemplates.OverlayUpdate | src/config/inputTemplates.ts:161-168 | loading after an update reads back the new template, keeps every other type and still covers every default type |
| InputTemplates.UpdateThenLoad | src/config/inputTemplates.ts:119-168 | for the store as written: after an update the loaded record reads back the new template, keeps every other type and still covers every default type |
| InputTemplates.ResetThenLoad | src/config/inputTemplates.ts:173-175 | loading after a reset gives exactly the module defaults as they stood at the reset |
| InputTemplates.FallbackUpdateSurvivesReset | src/config/inputTemplates.ts:119-175 | as written, an update of a type while nothing is stored, followed by a reset, leaves the store loading the edited template instead of the built-in one |
| InputTemplates.AsWrittenAgreesWhenStored | src/config/inputTemplates.ts:119-175 | from a stored record on, any session as written leaves the defaults built in and stores what the intended session `InputTemplates.RunIntended` stores |
| InputTemplates.IntendedResetRestores | src/config/inputTemplates.ts:173-175 | as intended, a reset at the end of any session stores and loads exactly the built-in templates |
| InputTemplates.MergeInput | src/config/inputTemplates.ts:182-217 | every merged definition has a truthy id, label and type |
| InputTemplates.MergeUserWins | src/config/inputTemplates.ts:194-200 | with `copy`, the type exists; the user's attributes other than `copy` win; the template fills in the rest; and `copy` is present only when the template has one |
| InputTemplates.UnknownTemplateIsNull | src/config/inputTemplates.ts:186-191 | copying an unknown type gives `null` |
| InputTemplates.NoCopyKeptAsIs | src/config/inputTemplates.ts:211-216 | without `copy`, a definition is kept unchanged exactly when it has a truthy id, label and type, and is `null` otherwise |
| InputTemplates.CopyDefaultCheckbox | src/config/inputTemplates.ts:182-209 | `{copy: "checkbox", id: "agree"}` against the defaults is the checkbox template with its id replaced |
| InputTemplates.CopyOverlay | src/config/inputTemplates.ts:197-200 | overlaying a well-formed template with a new truthy id is that template with the id replaced, and still well formed |
| InputTemplates.MergeAll | src/config/inputTemplates.ts:222-231 | no more results than definitions, and each result has a truthy id, label and type |
| InputTemplates.MergeAllContents | src/config/inputTemplates.ts:222-231 | the results are exactly the merges that succeed |
| InputTemplates.MergeInputsWithTemplates | src/config/inputTemplates.ts:222-231 | the loop computes every definition merged in order with the `null`s dropped |
| ConfigWriter.Clean | src/utils/configWriter.ts:9-29 | `null`, `undefined` and primitives come back as they are; an array keeps its length with each element cleaned; an object loses its `undefined` entries |
| ConfigWriter.CleanFields | src/utils/configWriter.ts:19-24 | no more entries survive than were looked at |
| ConfigWriter.CleanFieldsContents | src/utils/configWriter.ts:20-24 | an entry survives exactly when its value is not `undefined`, and then with its value cleaned; no surviving value is `undefined` |
| ConfigWriter.CleanIsCleaned | src/utils/configWriter.ts:9-29 | the result has no `undefined` object entry at any depth |
| ConfigWriter.CleanFieldsCleaned | src/utils/configWriter.ts:19-25 | every surviving entry is defined and cleaned at every depth |
| ConfigWriter.CleanFixesCleaned | src/utils/configWriter.ts:9-29 | a value with no `undefined` entry at any depth is returned unchanged |
| ConfigWriter.CleanFieldsFixes | src/utils/configWriter.ts:19-25 | an object with no `undefined` entry keeps all its entries, in order |
| ConfigWriter.CleanIdempotent | src/utils/configWriter.ts:9-29 | cleaning twice is cleaning once |
| ConfigWriter.RemoveUndefined | src/utils/configWriter.ts:9-29 | the recursive function with its loops computes the cleaning |
| ConfigWriter.IfTruthy | src/utils/configWriter.ts:52-63 | the optional entry is present exactly when the attribute is truthy, under its own key only, with the stored value |
| ConfigWriter.BaseKeys | src/utils/configWriter.ts:46-49 | the base front matter has exactly `title` and `inputs`, with the given values |
| ConfigWriter.FrontMatterKeys | src/utils/configWriter.ts:46-63 | the front matter always has `title` and `inputs`, has each optional attribute exactly when it is truthy, and never has `lastUseTime`, which saving therefore drops; the front matter is the function `ConfigWriter.FrontMatter` |
| ConfigWriter.FrontMatterHasKey | src/utils/configWriter.ts:46-63 | the front matter has a key exactly when one of its parts has it |
| ConfigWriter.FrontMatterValues | src/utils/configWriter.ts:46-63 | the front matter holds the title as it is, the cleaned inputs and, when present, the cleaned request and command |
| ConfigWriter.FrontMatterBase | src/utils/configWriter.ts:46-49 | the front matter holds the title as it is and the cleaned inputs |
| ConfigWriter.FrontMatterRequest | src/utils/configWriter.ts:58-60 | a truthy request is stored cleaned |
| ConfigWriter.FrontMatterCommand | src/utils/configWriter.ts:61-63 | a truthy command is stored cleaned |
| ConfigWriter.FrontMatterAt | src/utils/configWriter.ts:46-63 | a lookup of any key other than the first two optional ones finds the base entry, else the request entry, else the command entry |
| ConfigWriter.Save | src/utils/configWriter.ts:36-69 | saving fails exactly when the file path is missing or empty, with the message 配置文件路径不存在，无法保存; otherwise it writes, to that path, the body serialised under the front matter |
| ConfigWriter.BuildFrontMatter | src/utils/configWriter.ts:43-63 | the conditional assignments build exactly the front matter |
| ConfigWriter.SavePromptConfig | src/utils/configWriter.ts:36-76 | the method's result is the write, or the error for a missing path |
| ExecCommon.EnvChar | src/utils/commandExecutor.ts:16-18 | every character comes out in `[A-Z0-9_]`; those characters are kept, ASCII lower-case letters are upper-cased and everything else becomes `_` |
| ExecCommon.EnvUnits | src/utils/commandExecutor.ts:16-18 | a character outside the Basic Multilingual Plane, two code units to the unflagged pattern, becomes `__`; any other becomes its one mangled character |
| ExecCommon.ToEnvVarName | src/utils/commandExecutor.ts:16-18 | the name has one character per UTF-16 code unit of the id, that is the id's length plus one for every character outside the Basic Multilingual Plane, and only `[A-Z0-9_]` characters |
| ExecCommon.ToEnvVarNameBmp | src/utils/commandExecutor.ts:16-18 | on an id within the Basic Multilingual Plane the name has the id's length and each character is the id's character mangled: `[A-Z0-9_]` kept, ASCII lower case upper-cased, anything else `_` |
| ExecCommon.AstralIsTwoUnits | src/utils/commandExecutor.ts:16-18 | `a😀` is exported as `A__` |
| ExecCommon.EnvNameFixed | src/utils/commandExecutor.ts:16-18 | a name already made of `[A-Z0-9_]` is its own environment name |
| ExecCommon.ToEnvVarNameIdempotent | src/utils/commandExecutor.ts:16-18 | mangling a mangled name changes nothing |
| ExecCommon.CaseInsensitiveCollision | src/utils/commandExecutor.ts:16-18 | the ids `api-key` and `API_KEY` are both exported as `API_KEY` |
| ExecCommon.FillEnv | src/utils/commandExecutor.ts:40-54 | the loop over the value entries builds exactly the environment of the entry-by-entry specification |
| ExecCommon.EnvKeys | src/utils/commandExecutor.ts:40-54 | a variable is set exactly when some visible field with a value mangles to its name |
| ExecCommon.EnvValue | src/utils/commandExecutor.ts:40-54 | a visible field whose mangled name is shared by no other field sets that variable to its rendered value |
| ExecCommon.EnvCollisionLastWins | src/utils/commandExecutor.ts:40-54 | when `a-b` and `a_b` are both visible, `A_B` holds the value of the one enumerated last |
| ExecCommon.ProcessOr | src/utils/commandExecutor.ts:178-179 | the process variable when it is set and non-empty, the default otherwise |
| ExecCommon.MergeEnv | src/utils/commandExecutor.ts:174-180 | the keys are the process, script, `LIB_SH` and `SCRIPT_DIR` keys; `LIB_SH` and `SCRIPT_DIR` come from the process or their fixed defaults; any other script variable overrides the process one; other process variables pass through |
| ExecCommon.ExitCodeText | src/utils/commandExecutor.ts:265 | a falsy exit code reads `unknown`, a truthy one its string form |
| CommandExecutor.ValuesToEnv | src/utils/commandExecutor.ts:27-57 | the environment is the generic loop's with command-mode rendering under each field's configuration |
| CommandExecutor.ValuesToEnvEntries | src/utils/commandExecutor.ts:40-54 | a hidden field with an unshared name sets nothing; a visible one sets its name to `valueToCommandString` of its value under the last field of that id |
| CommandExecutor.PipePatterns | src/utils/commandExecutor.ts:69-70 | the double-pipe and lone-pipe patterns together match exactly the lines containing a pipe character |
| CommandExecutor.ShellCommandIff | src/utils/commandExecutor.ts:65-82 | a line is a shell command exactly when it contains `&&`, a pipe, `;`, a backtick, `$(`, `>`, `<`, `*`, `?` or a `[` followed by `]` on the same line; the eleven patterns are the predicate `CommandExecutor.IsShellCommand` |
| CommandExecutor.BracketExamples | src/utils/commandExecutor.ts:78 | `[` and `]` on different lines do not match the bracket pattern; `[ -f x ]` does |
| CommandExecutor.ScriptPathIsNotShell | src/utils/commandExecutor.ts:65-82 | a plain script path such as `/bin/backup.sh` is run directly |
| CommandExecutor.ConfigOf | src/utils/commandExecutor.ts:105-108 | a string stands for a configuration with that command line and nothing else; a configuration is used as given |
| CommandExecutor.Args | src/utils/commandExecutor.ts:138-151 | no arguments when none are configured; otherwise one substituted argument per configured one, in order |
| CommandExecutor.ScriptEnv | src/utils/commandExecutor.ts:154-171 | with `envs`, exactly their keys with substituted values; without, the environment `valuesToEnv` builds |
| CommandExecutor.Missing | src/utils/commandExecutor.ts:194-196 | no more directories than the fixed list |
| CommandExecutor.MissingIff | src/utils/commandExecutor.ts:194-196 | a directory is missing exactly when it is in the fixed list and not among the PATH entries |
| CommandExecutor.MissingAvoids | src/utils/commandExecutor.ts:194-196 | a character absent from every fixed directory is absent from every missing one |
| CommandExecutor.PathMerge | src/utils/commandExecutor.ts:193-202 | afterwards PATH is set and lists every fixed directory, no other variable changes, and a non-empty PATH survives whole at the end behind exactly the missing directories |
| CommandExecutor.PathParts | src/utils/commandExecutor.ts:193-202 | the new PATH splits into the missing directories followed by the old entries, or the missing directories alone when PATH was unset or empty |
| CommandExecutor.Cwd | src/utils/commandExecutor.ts:205-213 | a working directory exactly when a non-empty one is configured, and then its substitution |
| CommandExecutor.Launched | src/utils/commandExecutor.ts:216-246 | refused exactly when a non-empty working directory does not exist; otherwise a shell line runs as `/bin/sh -c line` and a file runs with its arguments, both with the given environment, directory and timeout |
| CommandExecutor.SubstituteArgs | src/utils/commandExecutor.ts:138-151 | the `args.push` loop yields the substituted arguments |
| CommandExecutor.SubstituteEnvs | src/utils/commandExecutor.ts:158-167 | the loop over `envs` yields each configured key with its substituted value |
| CommandExecutor.MergePath | src/utils/commandExecutor.ts:193-202 | the environment after the PATH step is the specified merge |
| CommandExecutor.MissingDirs | src/utils/commandExecutor.ts:194-196 | the filter yields the specified missing directories |
| CommandExecutor.BuildEnvironment | src/utils/commandExecutor.ts:154-202 | the environment of the process: script variables, spread merge, then the PATH step |
| CommandExecutor.SubstituteCwd | src/utils/commandExecutor.ts:205-213 | the working directory is the specified substitution |
| CommandExecutor.PrepareCommand | src/utils/commandExecutor.ts:98-246 | the checks and the launch agree with the specification of `executeCommand` up to the process start; that specification is the function `CommandExecutor.Prepare`, about which `CommandExecutor.Launched` states the outcome |
| CommandExecutor.SingleTokenLine | src/utils/commandExecutor.ts:111-117 | `{{cmd}}` becomes the value of a visible `cmd` field, and the empty string when it is hidden |
| CommandExecutor.ShellExamples | src/utils/commandExecutor.ts:65-82 | `{{cmd}}` and the empty line are not shell commands; the line `ls`, pipe, `wc` is |
| CommandExecutor.ShellDecidedAfterSubstitution | src/utils/commandExecutor.ts:111-120 | shell detection sees the substituted line: `{{cmd}}` with `cmd` holding a pipe runs under `/bin/sh -c` |
| CommandExecutor.HiddenFieldLineIsAPath | src/utils/commandExecutor.ts:123-127 | with the field hidden the line is empty and, when no such file exists, is refused as a missing file |
| CommandExecutor.MissingFileRefused | src/utils/commandExecutor.ts:123-127 | a substituted line that is no shell command and names no existing file is refused with the message naming the line |
| CommandExecutor.ErrorMessage | src/utils/commandExecutor.ts:261-287 | the `errorParts` sequence joined with "" is the specified error text `CommandExecutor.ErrorText`, whose shape `CommandExecutor.ErrorTextShape` states |
| CommandExecutor.JoinParts | src/utils/commandExecutor.ts:287 | joining the pushed parts with "" gives the header, the stderr section, the stdout section and the fallback, in that order |
| CommandExecutor.PartsPlaced | src/utils/commandExecutor.ts:261-287 | the header starts the text; with no later parts the last present section ends it |
| CommandExecutor.ErrorTextShape | src/utils/commandExecutor.ts:261-287 | the exit-code line comes first; with no visible output the original message follows it; otherwise the text ends with trimmed stdout, or trimmed stderr when stdout is blank; a falsy code reads `unknown` |
| ExecScript.ScriptValueIsCommandModeWithoutConfig | src/utils/execScript.ts:43-53 | the script launcher's rendering is command-mode conversion without a field configuration |
| ExecScript.ValuesToEnv | src/utils/execScript.ts:24-57 | the environment is the generic loop's with the launcher's own rendering |
| ExecScript.CheckboxOverrideIgnored | src/utils/execScript.ts:47-48 | a checkbox whose `trueValue` is `yes` exports `yes` through `executeCommand` but `true` through `executeScript` |
| ExecScript.PrepareScript | src/utils/execScript.ts:67-102 | refused exactly when the file is missing or not executable, naming the path; otherwise the path runs with no arguments, no working directory, a 30-second timeout and the merged environment |
| ExecScript.ExecuteScript | src/utils/execScript.ts:67-102 | the checks and the launch agree with the specification of `executeScript` |
| ExecScript.ScriptErrorKeepsBlankStderr | src/utils/execScript.ts:116-120 | a blank but non-empty stderr replaces the message in the script error, while `executeCommand` then reports the original message; the script error is the function `ExecScript.ScriptErrorText` (src/utils/execScript.ts:116-120): the exit-code line, then stderr when it is non-empty and the message otherwise |
| RequestExecutor.ReplaceVariablesToken | src/utils/requestExecutor.ts:24-37 | a `{{name}}` token becomes "" when the field is hidden or has no value, and otherwise `valueToCommandString` of its value under the last field of that id; `RequestExecutor.ReplaceVariables` is the specification of `replaceVariables` (src/utils/requestExecutor.ts:12-38) |
| RequestExecutor.AgreesWithUserVariables | src/utils/requestExecutor.ts:12-38 | on text without `-`, this substitution equals `replaceUserVariables` in command mode |
| RequestExecutor.SubstValue | src/utils/requestExecutor.ts:56-73 | strings are substituted, plain objects keep their keys in order with values substituted, and everything else is copied |
| RequestExecutor.ReplaceObjectVariables | src/utils/requestExecutor.ts:48-76 | the entry loop with its recursive calls yields the specified substituted object |
| RequestExecutor.SubstIdentity | src/utils/requestExecutor.ts:48-76 | a substitution that changes no string leaves every object unchanged |
| RequestExecutor.SubstCompose | src/utils/requestExecutor.ts:48-76 | substituting twice is substituting once with the composed function |
| RequestExecutor.QueryPairs | src/utils/requestExecutor.ts:121-129 | one pair per query entry with the same key; strings are substituted, numbers and booleans take their string form |
| RequestExecutor.WithQuery | src/utils/requestExecutor.ts:131-134 | an empty query string leaves the URL alone; otherwise it is appended after `&` when the URL holds `?` and after `?` when not |
| RequestExecutor.ContentTypeRule | src/utils/requestExecutor.ts:154-170 | `Content-Type` is added to the header keys; a non-empty configured value is kept; no other header changes |
| RequestExecutor.SubstHeaders | src/utils/requestExecutor.ts:138-144 | no headers when none are configured; otherwise exactly the configured keys with substituted values |
| RequestExecutor.ReplaceHeaders | src/utils/requestExecutor.ts:138-144 | the header loop yields the specified headers |
| RequestExecutor.ReplaceBody | src/utils/requestExecutor.ts:146-171 | the body step yields the specified body and headers |
| RequestExecutor.PrepareRequest | src/utils/requestExecutor.ts:116-174 | the URL, headers, body and timeout agree with the specification of `executeRequest` before `fetch`; that specification is the function `RequestExecutor.Prepare`, whose headers `RequestExecutor.PreparedHeaders` describes |
| RequestExecutor.PreparedHeaders | src/utils/requestExecutor.ts:137-171 | the header keys are the configured ones, plus `Content-Type` exactly when there is a body; configured values are kept except an empty `Content-Type`; there is a body exactly when one is configured and it is not the empty string |
| RequestExecutor.EmptyQueryKeepsUrl | src/utils/requestExecutor.ts:84-92 | with no query, or an empty query object that encodes to "" as `URLSearchParams` does, the URL is the substituted one, with neither `?` nor `&` |
| RequestExecutor.PreparedExample | src/utils/requestExecutor.ts:146-174 | a plain-text body with no headers and a zero timeout is sent as `text/plain` with the 30-second default |

## Left out

- Raycast rendering, toasts, navigation and launch handling are not modelled. Of the form components only their logic is modelled.
- Process execution is left out: `execFile`, its timeout and the 1 MB output buffer. The model stops at the launch decision (`CommandExecutor.Launched`, `ExecScript.PrepareScript`). The error texts are functions of the exit code, the streams and the message that `execFile` would report.
- `fs.existsSync`, `fs.accessSync` and `process.env` are parameters: a file-existence predicate, an executable predicate and a map.
- HTTP transport is left out: `fetch`, the abort timer, response parsing, the non-2xx error and the timeout error of `executeRequest`. The model stops at the prepared URL, headers, body and timeout.
- `URLSearchParams` serialisation, `JSON.parse`, `JSON.stringify` and the gray-matter parser and serialiser are function parameters. Properties that need a round trip assume one in their `requires`.
- JavaScript objects are modelled by their own keys only: a map, or a list of key/value pairs. Keys inherited from `Object.prototype` are not modelled. For example, `deeplinkInputs[input.id]` (src/utils/deeplinkValidator.ts:26) is `Deeplink.Supplied`, which gives `undefined` for an id such as `constructor`; the source reads the inherited function there.
- Form values are a map. Where the source walks them with `Object.entries` (src/utils/commandExecutor.ts:40, src/utils/execScript.ts:30, src/utils/results.ts:8), the order is a parameter `keys` that lists every key once (`PromptTypes.EnumeratesKeys`). JavaScript's own order, integer-like keys ascending and then insertion order, is not modelled. Objects held as pair lists are walked in list order.
- Local storage is a class holding a map from keys to strings. Its asynchrony is not modelled, and neither is the order in which `allItems` lists keys, which is a parameter of the methods that enumerate it.
- `Date.now()` is an input (`now`) wherever the source reads the clock.
- A timestamp that is not a number, so that the sort comparator gives `NaN`, is not modelled; timestamps are integers.
- JavaScript numbers are integers throughout: numeric query values, exit codes, timeouts and title levels. A fractional title level is not modelled.
- `path.join` is string concatenation with `/`, without normalising `..`, `.` or doubled separators.
- ExecCommon.ToEnvVarName: only ASCII letters are upper-cased. A non-ASCII character becomes `_`, even where `toUpperCase` would give an ASCII letter or several characters (`ı`, `ſ`, `ß`). A character outside the Basic Multilingual Plane becomes `__`, one `_` per UTF-16 code unit. Strings are sequences of Unicode characters, so a lone surrogate is not modelled.
- InputTemplates.TemplateStore.Get: the templates are stored as a map of field definitions. The JSON round trip through local storage is left out, as is a stored entry that is `null`.
- Prompts.LoadAll: the rules directory, `path.join(path.dirname(directory), "rules")` (src/config/prompts.ts:100), is a parameter, because `path.dirname` belongs to Node's path library, which is not part of this model.
- Prompts.NormaliseAll: `validateInputs` overwrites `options` on the parsed objects in place; the model returns the normalised copies, since nothing else holds those objects.
- MarkdownBuilder.Builder.If: the callback is given as the change it makes to the sections. Callbacks that do anything else, such as keep the builder or throw, are not modelled.
- AIStorage.Store.AddProvider: the write into `DEFAULT_AI_PROVIDERS` (src/utils/aiStorage.ts:88-91 on the fallback of 64-67) is the `defaults` field; how long the module object lives, and the preset menu that lists it (src/manage-ai.tsx:239), are not part of this model.
- Response headers are a list of name/value pairs. A record with a name listed twice is not modelled.
- ConfigWriter.SavePromptConfig: a failing serialiser or file write, rethrown as "保存配置失败: …", is not modelled. The model returns an error only for a missing `filePath`. The form methods that save, `PromptForm.PromptFormState.SaveFormValues` and `HandleSaveInput`, take the outcome of the write as the parameter `written`.
- `generateCurlCommand` is not part of this model. It is imported by src/components/PromptForm.tsx:21, but src/utils/requestExecutor.ts does not define it.
- `src/utils/folderReader.ts` is not part of this model, because it consists of directory reads and locale-dependent `localeCompare` ordering.
- `src/utils/description.ts` is not part of this model, because it evaluates JavaScript code through `new Function`.
- `src/config/forms.ts` is not part of this model. It is only static imports.
- The deprecated `executeScript` alias in `src/utils/commandExecutor.ts` only forwards its arguments, so it has no member of its own.

## Findings

| source | as written | input that shows it | evidently intended | confidence | as-written member | corrected member |
|---|---|---|---|---|---|---|
| src/components/PromptForm.tsx:151 | the prompt fields are passed to the visibility algorithm, which reads each field's options as `values`; a prompt field keeps them under `options`, so no option is seen | a `mode` select whose option `detail` lists `extraInputs: ["notes"]`, with `mode` set to `detail`: `notes` stays hidden | the field's `options` are read | high, not executed | PromptForm.AsWrittenRevealsNothing | PromptForm.NotesRevealedOnlyAsIntended |
| src/components/PromptForm.tsx:171-178 | `replaceTemplate` is called with the field list in the selection slot and the selected text in the clipboard slot | body `{selection}` with two fields: it renders as "[object Object],[object Object]", and `{clipboard}` renders the selected text | the selection fills `{selection}` and the clipboard fills `{clipboard}` | high, not executed | PromptForm.GeneratePromptAsWrittenSlots | PromptForm.GeneratePromptSlots |
| src/config/inputTemplates.ts:131 | with nothing stored, `loadInputTemplates` returns the module object `DEFAULT_TEMPLATES` itself, so `updateInputTemplate` writes into it and `resetInputTemplates` later saves the edited object | update `text` to a new template with nothing stored, then reset: the store loads the new template, not the built-in one | the load returns a copy, the defaults never change, and a reset restores the built-in templates | high, not executed | InputTemplates.FallbackUpdateSurvivesReset | InputTemplates.IntendedResetRestores |
| src/utils/aiStorage.ts:64-67 | with nothing usable stored, `getAIConfig` returns a configuration whose `providers` is the module array `DEFAULT_AI_PROVIDERS` itself, so `addAIProvider` pushes into it or overwrites one of its entries (src/utils/aiStorage.ts:88-91) | add a provider `my-ai` with nothing stored: `DEFAULT_AI_PROVIDERS` now holds seven providers, `my-ai` among them | the fallback holds a copy and the built-in providers never change | medium, not executed | AIStorage.FallbackAddChangesDefaults | AIStorage.IntendedKeepsDefaults |

In the first row:

- The as-written view is `PromptForm.VisibleIdsAsWritten`, built through `PromptForm.FieldAsWritten`.
- The corrected view is `PromptForm.VisibleIds`, built through `PromptForm.Field`.
- The form state validates and substitutes with the corrected view.

In the second row:

- The as-written prompt is `PromptForm.GeneratePromptAsWritten`; the corrected one is `PromptForm.GeneratePrompt`.
- The same slot mix-up affects the four-argument calls for the copied command and the failed-request URL (src/components/PromptForm.tsx:226-231 and 326-334).
  - As written, that text is `PromptForm.RenderAsWritten`; corrected, it is `PromptForm.Render`.
  - `PromptForm.RenderSelection` contrasts the two.

In the third row:

- The store is modelled as written: `InputTemplates.TemplateStore` keeps the module defaults as a field, and `InputTemplates.TemplateStore.Update` writes into them when nothing is stored.
- The intended session is `InputTemplates.RunIntended`. `InputTemplates.AsWrittenAgreesWhenStored` shows that the two differ only until a record is first stored.

In the fourth row:

- The store is modelled as written: `AIStorage.Store` keeps `DEFAULT_AI_PROVIDERS` as its `defaults` field, and `AIStorage.Store.AddProvider` writes into it when the configuration it read was the fallback.
- The write happens only when nothing usable is stored at the time of the add. The same `getAIConfig` call then stores the fallback, so with an encoding that round-trips the stored entries never depend on the defaults again (`AIStorage.StoredIgnoresDefaults`). What changes is the module array: the preset menu of the add form lists it (src/manage-ai.tsx:239), and so does any later fallback in the same process.
- The intended session is `AIStorage.RunIntended`. `AIStorage.IntendedDefaultsFixed` shows that it keeps the defaults.

## Observations

These behaviours follow from the code as written and may not be intended. The model keeps them as they are:

- `{selection}` also matches inside `{{selection}}`, so a field named `selection` is never substituted by `replaceTemplate` (`Template.BuiltinPassSeesUserToken`).
- Resolved Obsidian references go through a string replacement, so `$$` in a rule file becomes `$` (`Prompts.DollarsInRuleCollapse`).
- A selection text containing `$&` re-inserts the matched token when the launcher variables are replaced (`VariableReplacer.SelectionReplacementCases`).
- Saving a prompt configuration drops `lastUseTime` from the front matter, although `saveFormValues` has just set it (`ConfigWriter.FrontMatterKeys`).
