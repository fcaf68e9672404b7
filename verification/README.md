# kube-prompt completion core, in Dafny

kube-prompt is an interactive shell for kubectl. While the user types, it
offers suggestions for the word before the cursor. This project models the
part that computes those suggestions:

- `Completion` models kube/completer.go. `Complete` looks at the text
  before the cursor. It stops at a pipe, offers flags for a dashed word,
  offers file or namespace values after `-f` or `-n`, and otherwise passes
  the positional words to the argument completer. This module also holds
  `checkNamespaceArg`, the three-result `getPreviousOption`,
  `completeOptionArguments` and `excludeOptions`.
- `Arguments` models kube/arguments.go. It holds the command table and the
  resource-type table, and the per-command dispatch of `argumentsCompleter`.
  Each decision is a `Plan`: which list to read, which word to filter by,
  and whether to filter by prefix or by substring. `Run` evaluates a plan
  against the cluster.
- `Options` models kube/option.go: the flag tables and `optionCompleter`.
- `OptionArguments` models kube/option_arguments.go: the two-result
  `getPreviousOption` and the file-flag completer.
- `OptionConv` models internal/optionconv/conv.go. It cuts the options block
  out of a kubectl help text, joins continuation lines, and turns each flag
  line into suggestions.
- `FlagGenerator` models the conversion functions of
  _tools/option_completer_generator/main.go: `getFlags`, `convertToSuggest`
  and `convertToSuggestions`.
- `ApiResources` models kube/load_api_resources.go. It turns the server's
  resource list into the resource-type and subcommand tables.

Supporting modules:

- `GoStrings` models the Go `strings` functions the code calls, on `seq<char>`.
- `Prompt` models go-prompt's `Suggest`, `Document` and its two filters.
- `Cluster` stands for the collaborators the code reads names from.
  Each one is an uninterpreted function held in an `Env`.
- `Results` defines `Option` and `Result`.

A Go index out of range panics. The model turns each such index into a
precondition:

- `args[0]` in kube/arguments.go:102 becomes `requires |args| >= 1` on
  `Arguments.ArgumentsCompleter`.
- `y[1]` in _tools/option_completer_generator/main.go:21 becomes
  `HasGlobalSection` on `FlagGenerator.GetFlags`.
- `x[1]` in internal/optionconv/conv.go:38 becomes `Contains(flagLine, ": ")`
  on `OptionConv.ConvertToSuggest`.

`Complete` can reach the first of these with an empty argument list. That
case is recorded under Findings.

For a long-flag request, kube/option.go:33-38 keeps the `--` entries and
then filters them by substring, like every other flag request.

## Model

| member | source | states |
|---|---|---|
| Completion.Complete | kube/completer.go:55-84 | An empty text before the cursor gives no suggestions, and so does a pipe token anywhere before the cursor. |
| Completion.Prepare | kube/completer.go:59-83 | A flag request is made exactly when the text before the cursor is nonempty, has no pipe token and the word before the cursor is dashed. It carries the split line and is long-only exactly when that word starts with `--`. On a nonempty, pipe-free text with an undashed word before the cursor, the completer answers at once exactly when the option-value completer reports found, and then with that completer's suggestions. A positional request carries exactly the words `excludeOptions` keeps from the split line, all undashed. Its namespace is the one written after `-n`/`--namespace` on the line, or the completer's default when there is none. |
| Completion.CompleteAsWritten | kube/completer.go:79-83 | The code panics exactly when the positional words come out empty. Otherwise it returns what the corrected `Complete` returns. |
| Completion.FileFlagAloneFindsNoWord | kube/completer.go:79-83 | For the line `-f ` the code as written panics; the corrected completer offers nothing. |
| Completion.FileFlagAloneLeavesNoWord | kube/completer.go:151-187 | On the line `-f `, excluding the flag and its empty value leaves no positional word. |
| Completion.PipeIsSticky | kube/completer.go:62-67 | Once a pipe token is before the cursor, nothing typed after it gets suggestions. |
| Completion.DashedWordOffersFlagsAnywhere | kube/completer.go:59-72 | For any cursor position: when the text before the cursor is nonempty, has no pipe token and the word before the cursor is dashed, the answer is the flag completer's answer for the split text. It is long-only exactly when that word starts with `--`. |
| Completion.LoneDashedWordOffersHelp | kube/completer.go:69-72 | A dashed word typed alone gets the help flags: `--help` for a long request, `-h` and `--help` otherwise. |
| Completion.DashedWordOffersFlags | kube/completer.go:69-72 | The same rule for a line typed to its end, written as words `t`, a space and a dashed word `u`. The flag completer gets the words of `t` followed by `u`. |
| Completion.DashedWordAsksForFlags | kube/completer.go:69-72 | For a line typed to its end, a dashed last word turns into a flag request for the words of the line. |
| Completion.FirstWordOffersCommands | kube/arguments.go:100-103 | A single undashed first word gets the command table, filtered by case-insensitive prefix. |
| Completion.FirstWordIsPositional | kube/completer.go:59-83 | A single undashed first word is passed on as the only positional word. |
| Completion.NamespaceFlagOffersNamespaces | kube/completer.go:74-77 | After `-n`/`--namespace` under a command that takes files, the known namespaces are offered, filtered by the word being typed. |
| Completion.NamespaceFlagAnswers | kube/completer.go:74-77 | In that situation the completer answers with those namespaces before looking at positional words. |
| Completion.NamespaceValueFound | kube/completer.go:128-145 | After a namespace flag under a command that takes files, the option-value completer reports found. Its answer is the namespaces filtered by the word before the cursor. |
| Completion.OptionBeforeWord | kube/completer.go:116-126 | When the word before the last space is dashed, the previous option is that word, and the command is the line's first word. The word before the cursor is the text after the last space. |
| Completion.PreviousOptionAfterSpace | kube/completer.go:116-126 | Same as OptionBeforeWord, stated on the text alone. |
| Completion.NamespaceOnLineOverridesDefault | kube/completer.go:79-82 | When the line names a namespace, the completer's default namespace has no effect on the suggestions. |
| Completion.PrepareIgnoresDefault | kube/completer.go:79-82 | When the line names a namespace, the default has no effect on the completion request either. |
| Completion.NamespaceArg | kube/completer.go:86-99 | A nonempty answer is the word right after some `-n`/`--namespace` on the line. |
| Completion.NamespaceArgFollowsFirstFlag | kube/completer.go:86-99 | The answer is the word after the first namespace flag. |
| Completion.NamespaceArgWithoutFlag | kube/completer.go:86-99 | Without a namespace flag that has a word after it, the answer is empty. |
| Completion.GetPreviousOption | kube/completer.go:116-126 | Finds the same option as the two-result version in kube/option_arguments.go. When found, the command is the line's first word; otherwise it is empty. |
| Completion.CompleteOptionArguments | kube/completer.go:128-149 | Found exactly when the command is one of the listed file-taking commands and the previous option is a file or namespace flag. A file flag gives the file completer's answer. A namespace flag gives the namespaces filtered by prefix. Not found gives nothing. |
| Completion.FileFlagAgreesWithFileCompleter | kube/completer.go:128-139 | Under a file-taking command, whenever the file completer of kube/option_arguments.go fires, this completer fires too. Each answers with its own listing: `yamlFileCompleter` here and `fileCompleter` there. The two answers are equal when the two listings are. |
| Completion.FileFlagHasNoValue | kube/completer.go:128-149 | On the line `-f ` the option-value completer finds nothing, because the first word `-f` is not a command. |
| Completion.ExcludeOptions | kube/completer.go:151-187 | The result is the reference `Positionals` of the whole list. Every word kept occurs in the input and is not dashed. |
| Completion.Positionals | kube/completer.go:151-187 | The reference definition keeps only undashed words of the prefix it looks at. |
| Completion.ScanFindsPositionals | kube/completer.go:167-185 | The loop with its skip-next flag computes the reference `Positionals`. |
| Completion.ExcludeOptionsAppend | kube/completer.go:167-185 | Adding a word keeps it exactly when it is undashed and not the value of a value-taking flag. |
| Completion.ExcludeOptionsKeepsPlainWords | kube/completer.go:151-187 | A list without dashed words is returned unchanged. |
| Completion.ExcludeOptionsIdempotent | kube/completer.go:151-187 | Excluding options twice is the same as excluding them once. |
| Completion.ValuedFlagsAreFlags | kube/completer.go:155-165 | Every value-taking flag starts with a dash. |
| OptionArguments.GetPreviousOption | kube/option_arguments.go:16-26 | Found exactly when the option is nonempty and dashed. |
| OptionArguments.OneWordHasNoPreviousOption | kube/option_arguments.go:16-26 | A text without spaces has no previous option. |
| OptionArguments.PreviousOptionIsWordBefore | kube/option_arguments.go:16-26 | The previous option is the word before the last space, if that word is dashed, and nothing otherwise. |
| OptionArguments.CompleteOptionArguments | kube/option_arguments.go:28-40 | Found exactly when the previous option is `-f` or `--filename`. It then returns the file listing; otherwise it returns nothing. |
| Options.OptionCompleter | kube/option.go:8-41 | The result is a subsequence of the command's flag table. A long request keeps only `--` flags. Membership is that table's entries whose upper-cased text contains the upper-cased last word with its leading dashes removed. With at most one word, it is the help flags. |
| Options.LongIsShortNarrowed | kube/option.go:33-40 | The long answer is the short answer restricted to `--` flags. |
| Options.HelpWithoutCommand | kube/option.go:10-15 | With one word, the answer is `-h`,`--help`, or `--help` alone for a long request. |
| Options.LongOnly | kube/option.go:35 | Keeps, in order, exactly the entries starting with `--`. |
| Arguments.ArgumentsCompleter | kube/arguments.go:100-490 | One word gives the command table by prefix. `annotate` and unknown commands give nothing, and so do four or more words except under `explain`. Three or more words give nothing under the commands that complete only their first argument (create, namespace, logs, attach, exec, scale and resize, cordon, drain and uncordon, rollout, cluster-info), and under `config` unless the second word is `use-context`. `explain` gives the resource types by prefix. |
| Arguments.ArgumentsPlan | kube/arguments.go:100-490 | The same decisions as ArgumentsCompleter, including the empty answers at depth three. Every other plan filters the last word, by prefix only for static tables, nodes and pod ports. A namespaced list is read in the given namespace. |
| Arguments.CommandPlan | kube/arguments.go:105-489 | The per-command part of ArgumentsPlan keeps the same invariants. After a command that completes only its first argument, or after `config` with a second word other than `use-context`, a third word falls through to no suggestions. |
| Arguments.Run | kube/arguments.go:100-490 | No plan gives nothing. A filter plan returns a subsequence of its list: exactly the entries whose upper-cased text has the word as prefix or substring. An empty word returns the whole list. |
| Arguments.NamesOf | kube/arguments.go:163-207 | The names of a selected kind are filtered by substring, with the last word, in the given namespace. |
| Arguments.Resolve | kube/arguments.go:165-205 | A namespaced kind is read in the given namespace. Cluster-wide kinds and namespaces are read without one. |
| Arguments.SelectFirstCase | kube/arguments.go:165-205 | A Go switch picks the first case listing the word, and nothing when no case lists it. |
| Arguments.ScaleListsThreeKinds | kube/arguments.go:388-395 | `scale`/`resize` offers deployments, then replica sets, then replication controllers of the namespace, each filtered by substring. |
| Arguments.ScalePlan | kube/arguments.go:388-395 | `scale`/`resize` with one more word searches the three scalable kinds. |
| Arguments.FilterContainsAppend3 | kube/arguments.go:391-394 | Filtering the concatenation of three lists is concatenating the filtered lists. |
| Arguments.DescribeIsGetPlusClusters | kube/arguments.go:208-212 | `describe <word>` offers `clusters` if it matches, followed by exactly what `get <word>` offers. |
| Arguments.ResourceTypesExtendKinds | kube/arguments.go:47-98 | The resource-type table is `clusters` followed by the kinds `get` offers. |
| Arguments.CordonOffersNodesByPrefix | kube/arguments.go:396-403 | `cordon`, `drain` and `uncordon` with one more word offer the cluster's nodes whose names start with that word, ignoring case. |
| Arguments.DeleteEditOfferResourceTypes | kube/arguments.go:208-327 | `describe`, `delete` and `edit` with one more word offer the resource types that start with that word. |
| Arguments.KindCommandPlan | kube/arguments.go:107-373 | `get`, `describe`, `delete` and `edit` complete their third word through the kind switch on their second word. |
| Arguments.UnknownKindOffersNothing | kube/arguments.go:107-373 | Under those commands, a kind word that no case of the switch lists gets no suggestions: the switch has no default, and the function falls through to its empty answer. |
| Arguments.EventNamesNotOffered | kube/arguments.go:107-206 | `get events <word>` gets no suggestions, although `get` offers `events` as a kind. |
| Arguments.KindWordOffersNames | kube/arguments.go:107-373 | Under those commands, a kind word gets the names read for the first case that lists it, in the namespace for namespaced kinds, filtered by substring. |
| Arguments.TopAcceptsNode | kube/arguments.go:477-485 | `top node <word>` offers the cluster's nodes, filtered by substring. |
| OptionConv.GetOptionsFromHelpText | internal/optionconv/conv.go:10-18 | An error exactly when the help text has no options header. Otherwise the block has no blank line and no newline at either end. |
| OptionConv.OptionsBlockFound | internal/optionconv/conv.go:10-18 | The block between the first options header and the next blank line is returned with its newlines trimmed. |
| OptionConv.SplitOptions | internal/optionconv/conv.go:20-33 | At least one entry comes out, because the first line always opens one. |
| OptionConv.GatherFollowsOpeners | internal/optionconv/conv.go:20-33 | There is one entry per opening line, meaning the first line and every indented line. Each entry starts with its opening line, trimmed. |
| OptionConv.SplitPrinted | internal/optionconv/conv.go:20-33 | For a block printed as options, each an opening line and continuation lines, the entries are exactly one per option, in order. Each entry is its opening line trimmed, followed by each continuation line after a single space. |
| OptionConv.GatherPrinted | internal/optionconv/conv.go:23-32 | The line loop gathers the lines of printed options into those entries. |
| OptionConv.GatherEntry | internal/optionconv/conv.go:23-32 | One opening line and its continuation lines gather into that option's entry. |
| OptionConv.GatherAppend | internal/optionconv/conv.go:20-33 | Input split before an indented line gathers into the two parts' entries, one after the other. |
| OptionConv.SplitOptionsCount | internal/optionconv/conv.go:20-33 | There are as many entries as indented lines after the first, plus one. |
| OptionConv.ExtendLast | internal/optionconv/conv.go:29 | Only the last entry changes, and the text is appended to it. |
| OptionConv.ConvertToSuggest | internal/optionconv/conv.go:35-55 | At least one suggestion. Every suggestion carries the text after the first `": "` as its description. |
| OptionConv.ConvertRendered | internal/optionconv/conv.go:35-55 | Reading a rendered flag line, meaning comma-joined names, a default and a description, gives back one suggestion per name, in order, each with that description. |
| OptionConv.NameWithDefault | internal/optionconv/conv.go:47-51 | A default written after a name is dropped from the suggestion text. |
| OptionConv.PlainNameIsFlagName | internal/optionconv/conv.go:47-51 | A plain name comes back unchanged. |
| OptionConv.ConvertToSuggestions | internal/optionconv/conv.go:57-66 | At least one suggestion per line. |
| OptionConv.ConvertToSuggestionsAppend | internal/optionconv/conv.go:57-66 | Converting two lists of lines is converting each and concatenating. |
| OptionConv.FilenameFlagLine | internal/optionconv/conv.go:57-66 | The line `-f, --filename=[]: d` gives `-f` and `--filename`, both described by `d`. |
| FlagGenerator.GetFlags | _tools/option_completer_generator/main.go:12-23 | An error (the tool's exit) exactly when there is no flags header. Both sections come back without a newline at either end. |
| FlagGenerator.FlagSectionsFound | _tools/option_completer_generator/main.go:12-23 | The text between the flags header and the global-flags header, and the text after the latter, are returned trimmed. |
| FlagGenerator.ConvertToSuggestAsWritten | _tools/option_completer_generator/main.go:25-39 | The code as written gives at least one suggestion. Each is described by the text after the first `": "`. |
| FlagGenerator.ConvertRenderedAsWritten | _tools/option_completer_generator/main.go:25-39 | As written, a rendered line whose last name is followed by nothing, by a bare `=` or by `[=default]` gives back exactly the names, in order, with the description. |
| FlagGenerator.WatchFlagAsWritten | _tools/option_completer_generator/main.go:25-39 | As written, `-w, --watch[=false]: d` gives `-w` and `--watch`. |
| FlagGenerator.AsWrittenKeepsDefault | _tools/option_completer_generator/main.go:30-32 | As written, a default introduced by `=` stays glued to the last flag name. |
| FlagGenerator.ServerFlagAsWritten | _tools/option_completer_generator/main.go:25-39 | As written, `-s, --server="": d` gives `-s` and `--server=""`. |
| FlagGenerator.ConvertToSuggest | _tools/option_completer_generator/main.go:25-39 | The corrected conversion gives at least one suggestion. Each is described by the text after the first `": "`. |
| FlagGenerator.ConvertRendered | _tools/option_completer_generator/main.go:25-39 | The corrected conversion of a rendered line, meaning indent, comma-joined names, a default and a description, gives back exactly the names, in order, with the description. |
| FlagGenerator.ServerFlag | _tools/option_completer_generator/main.go:25-39 | Corrected, `-s, --server="": d` gives `-s` and `--server`. |
| FlagGenerator.ConvertJoinedLines | _tools/option_completer_generator/main.go:41-51 | Converting a section of newline-joined lines is converting each line and concatenating the results. This holds both for the code as written and for the corrected line conversion. |
| FlagGenerator.ServerSection | _tools/option_completer_generator/main.go:41-51 | As written, the section `  -s, --server="": d` gives `-s` and `--server=""`. Corrected, it gives `-s` and `--server`. |
| FlagGenerator.TrimmedNewlines | _tools/option_completer_generator/main.go:20-21 | A trimmed section has no newline at either end. |
| ApiResources.LoadApiResources | kube/load_api_resources.go:8-31 | On error the tables are unchanged and the error is returned. Otherwise both tables become the flattened list. |
| ApiResources.FlattenLength | kube/load_api_resources.go:14-26 | There is one suggestion per resource name and per short name. |
| ApiResources.FlattenUndescribed | kube/load_api_resources.go:17-23 | No suggestion has a description. |
| ApiResources.FlattenOffers | kube/load_api_resources.go:15-26 | A text is offered exactly when some resource of some group has it as its name or as a short name. |
| ApiResources.OneResource | kube/load_api_resources.go:16-25 | A resource contributes its name followed by its short names, in order. |
| ApiResources.FlattenAppend | kube/load_api_resources.go:15-26 | The groups of two lists contribute one after the other. |

## Left out

- Fetching object names through the Kubernetes client (kube/resource.go): each fetcher is an uninterpreted function in `Cluster.Env`.
- The caching and context (`ctx`) of those fetches: they are not modelled, because they do not change what the completer filters.
- The file listing behind the `-f` completers: `yamlFileCompleter` and `fileCompleter` read directories. They are passed in as a function of the document.
- kube/format.go and kube/executor.go: they are output formatting and command execution, not completion.
- `NewCompleter`, the client setup and the program's `main`: they are I/O.
- The generator's `main`: it reads standard input and prints. Its `os.Exit(1)` after a missing flags header is modelled as an `Err` result.
- Case folding: the filters upper-case ASCII letters only. Go's `strings.ToUpper` also maps non-ASCII letters.
- Strings are sequences of characters, not UTF-8 bytes. The code splits only at ASCII separators, so the two views agree on where pieces start and end.
- Arguments.ArgumentsCompleter: for the branches that read names from the cluster, its own contract states the filter mode, the word and the namespace only through ArgumentsPlan. The answers for the kind switch, the node commands, scale and top are stated by separate lemmas. Which kind each alias selects is data copied into `KindCases` and `TopKindCases`. It is not stated as a separate disjointness or inverse property.
- FlagGenerator.ConvertToSuggestions: neither it nor FlagGenerator.ConvertToSuggestionsAsWritten carries a contract of its own. ConvertJoinedLines and ServerSection state what each computes.
- OptionConv.SplitOptions: its own contract gives only a lower bound on the count. SplitPrinted states the entries of a block printed as options. SplitOptionsCount states the exact count.

## Findings

| source | as written | input that shows it | evidently intended | confidence | as-written member | corrected member |
|---|---|---|---|---|---|---|
| kube/arguments.go:101-102 | `Complete` passes the words kept by `excludeOptions` to `argumentsCompleter`, and that function indexes `args[0]` even when the list is empty. Every word of the line can be a value-taking flag or its value. | the line `-f ` with the cursor at the end: the words are `-f` and an empty value, and both are removed | no suggestions | not executed | Completion.CompleteAsWritten (shown by Completion.FileFlagAloneFindsNoWord) | Completion.Complete |
| _tools/option_completer_generator/main.go:30-31 | The key is cut at the first `[` and trimmed of ` [=` at both ends, so a default written as `=value` stays in the last flag name. | `  -s, --server="": d` gives `--server=""` | `--server` | not executed | FlagGenerator.ConvertToSuggestAsWritten and FlagGenerator.ConvertToSuggestionsAsWritten (shown by FlagGenerator.ServerFlagAsWritten, FlagGenerator.ServerSection and FlagGenerator.AsWrittenKeepsDefault) | FlagGenerator.ConvertToSuggest and FlagGenerator.ConvertToSuggestions (with FlagGenerator.ConvertRendered, FlagGenerator.ServerFlag and FlagGenerator.ConvertJoinedLines) |
