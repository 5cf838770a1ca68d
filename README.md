# fuzzer: the argument resolver, in Dafny

This project models `fuzzer.cpp`. It is the command-line front end of a content-discovery tool whose fuzzing engine is not implemented. What it does have:

- **`Parameters`**: a class with four flags (`dirs`, `subs`, `help`, `error`), a log level, a link and three stream slots (`wordlistSubs`, `wordlistDirs`, `logFile`).
- **`searchParameters`**: resolves one option in place, or expands a compacted cluster such as `-sdo` letter by letter through recursive calls. It returns 0 or 1: for one option, whether it took the next token as a file argument; for a cluster, the last letter's value.
- **`loopParameters`**: walks `argv` from index 1 up to the last argument, which is the link.
- **`parseLink`**: returns the last argument unchanged.
- **`main`'s dispatch**: runs the parse, then takes the error text over the usage text over the fuzzing run.
- **`Logger::levelToString`** and the text of one log line.

File opening is an oracle. A `FileSystem` value lists the paths that open for reading (the wordlists) and for writing (the output file). A stream is an `Option<string>` slot holding the path of the file bound to it. As in C++, opening a stream that is already open fails and keeps the old file bound.

The modules are:

- `Logging`: the level enumeration, `levelToString`, and the log line with a parser that reads it back.
- `Resolver`: what one call of `searchParameters` and one run of `loopParameters` do, as functions on a `Config` value.
- `ResolverFacts`: lemmas about those functions.
- `Params`: the `Parameters` class, and `searchParameters` and `loopParameters` as module-level methods that take the object (`pm`) and update it in place. Each is proved to leave the object in the state the matching function computes.
- `EntryPoint`: `main` as a function and as a method, plus whole command lines worked through.
- `Findings`: two defects of the source. Each has the behaviour as written, shown on a concrete input, and a corrected definition with the intended property proved.

Where the code and its description disagree, the model follows the code:

- A log line has no space between `]` and the level name.
- `-o` takes the next token even when it starts with `-`. Only `-d` and `-s` refuse such a token.
- Any token that spells no option is read as a cluster, whether or not it starts with `-`.
- A cluster is expanded only up to the first character that is not a cluster letter.
- A cluster returns the last letter's shift, not the sum of the shifts.

## Model

| member | source | states |
|---|---|---|
| Logging.Code | fuzzer.cpp:8-16 | Each enumerator carries its declaration position: SILENT 0, ERROR 1, WARNING 2, INFO 3, DEBUG 4, ADVANCED 5, each if and only if. |
| Logging.LevelOfCode | fuzzer.cpp:8-16 | An integer names an enumerator exactly when it lies in 0..5, and then it names the one with that value. |
| Logging.LevelToString | fuzzer.cpp:64-83 | The result is "UNKNOWN" exactly when the value is none of the six enumerators. Every label is non-empty and contains no `:` or `]`. |
| Logging.LevelNameRoundTrip | fuzzer.cpp:66-79 | Each enumerator's label reads back as that enumerator, so the six labels are distinct. |
| Logging.UnknownIsNoLevel | fuzzer.cpp:80-81 | The default label "UNKNOWN" reads back as no enumerator. |
| Logging.LogEntry | fuzzer.cpp:44-47 | The line's length is the sum of its parts plus 4. It opens with `[`, has `]` right after the timestamp, the label right after that with no space between, and ends with a line break. |
| Logging.IndexOf | fuzzer.cpp:44-47 | The first position at or after `from` holding the character, or the end of the string. |
| Logging.SplitJoined | fuzzer.cpp:44-47 | Splitting `[ts]name:msg` plus a line break gives back the three fields, when `ts` has no `]` and `name` has no `:`. |
| Logging.LogEntryRoundTrip | fuzzer.cpp:44-47 | A log line splits back into its timestamp, the level's label and the message (round trip). |
| Resolver.Open | fuzzer.cpp:143-144 | An open slot stays bound to its file. An empty slot becomes bound exactly when the path can be opened, and then to that path. |
| Resolver.GrowsTransitive | fuzzer.cpp:140 | The "only grows" relation between parameter states is transitive. |
| Resolver.ClassifySpellings | fuzzer.cpp:138-214 | A token selects `-d`, `-s`, `-h`, `-v` or `-o` if and only if it is the short or the long spelling of that option. |
| Resolver.LookaheadRule | fuzzer.cpp:141-216 | A flag sees a next token if and only if `i + 1` is an argument other than the last one (the link). `-d`/`-s` take it if and only if, in addition, its first character is not `-`; an empty token's first character is its terminator. |
| Resolver.SynthesizedIsExact | fuzzer.cpp:242-247 | The `-x` token built for a cluster letter always hits that letter's own branch, so the recursion is one level deep. |
| Resolver.Single | fuzzer.cpp:138-234 | One exact option returns 0 or 1. It returns 1 only when the next token lies strictly before the link. Every flag and slot only grows. |
| Resolver.Search | fuzzer.cpp:130-253 | `searchParameters` returns 0 or 1, and 1 only when a token before the link was available at `i + 1`. The parameters only grow. |
| Resolver.ClusterLoop | fuzzer.cpp:238-251 | The cluster loop only advances the index, and by at least the final shift. Its shift is 0 or 1, and a shift of 1 is backed by a token before the link. The parameters only grow. |
| Resolver.ClusterLoopStep | fuzzer.cpp:240-249 | One loop turn resolves the letter by its own option's branch at the current index, then goes on at the index advanced by that branch's shift. |
| Resolver.ClusterLoopDone | fuzzer.cpp:240-251 | The loop stops at the end of the token or at the first non-letter, and returns the last shift. |
| Resolver.SearchExact | fuzzer.cpp:133-234 | A token that spells an option exactly (`-x` or its long form) is resolved by that option's branch alone. |
| Resolver.LoopFrom | fuzzer.cpp:255-263 | The pass from any index leaves parameters that only grew. |
| Resolver.LoopFromConfigStep | fuzzer.cpp:258-262 | One turn of `loopParameters` resolves `argv[i]`, then continues at `i` plus the returned shift plus one. |
| Resolver.LoopFromDone | fuzzer.cpp:258 | The loop does nothing once the index reaches the last argument. |
| Resolver.Resolve | fuzzer.cpp:280-282 | The parse `main` runs on a fresh object only turns flags on and binds slots; the level ends as INFO or DEBUG. |
| ResolverFacts.HelpAndVerboseTouchOnlyTheirField | fuzzer.cpp:204-213 | `-h` sets only `help` and `-v` sets only the level, to DEBUG. Both return 0. Applying `-v` twice equals applying it once. |
| ResolverFacts.WordlistClaimRule | fuzzer.cpp:138-186 | `-d`/`-s` return 1 if and only if the next token lies before the link and does not start with `-`. They always set `dirs`/`subs`. |
| ResolverFacts.DirsBinding | fuzzer.cpp:138-170 | `-d` opens the claimed token, or else `/usr/share/wordlists/dirb/big.txt`, into `wordlistDirs`. It sets `error` exactly when that slot stays empty. Nothing else changes. |
| ResolverFacts.SubsBinding | fuzzer.cpp:171-203 | `-s` with a claimable token binds it to `wordlistSubs`. Without one, it opens `/usr/share/wordlists/subs/medium.txt` into `wordlistDirs` and sets `error` unless `wordlistSubs` was already bound. |
| ResolverFacts.OutputRule | fuzzer.cpp:214-234 | With no token before the link, `-o` sets `error`, leaves `logFile` alone and returns 0. With one, it returns 1 whatever that token is and whether or not the open succeeds, setting `error` on failure. |
| ResolverFacts.FailedOpenSetsError | fuzzer.cpp:138-234 | A slot that `-d`, `-s` (with a claimed token) or `-o` tried to fill and left empty always comes with `error`. |
| ResolverFacts.LetterRun | fuzzer.cpp:240 | The letters the cluster loop visits: the maximal run of `d`,`s`,`h`,`v`,`o` from the given position, a slice of the token. |
| ResolverFacts.LetterRunIsMaximal | fuzzer.cpp:240 | Any stretch of cluster letters ending at a non-letter or at the end of the token is exactly that run. |
| ResolverFacts.ApplyLetters | fuzzer.cpp:238-251 | The reference fold over the letters: the index only advances, and the final shift is 0 or 1, backed by a token before the link. |
| ResolverFacts.ApplyFirstLetter | fuzzer.cpp:247-249 | The first letter is resolved at `i`, and the rest at the index it advanced to. |
| ResolverFacts.ClusterVisitsLetterRun | fuzzer.cpp:238-251 | The cluster loop equals the reference fold over exactly the run of letters after the first character, left to right. |
| ResolverFacts.ApplyLastLetter | fuzzer.cpp:247-251 | An appended letter is resolved at the index all earlier letters reached. The cluster's shift is that last letter's shift alone. |
| ResolverFacts.ApplyAdvance | fuzzer.cpp:247-248 | A cluster advances the index by at most one per letter, and never onto the link. |
| ResolverFacts.StackedLettersClaimInOrder | fuzzer.cpp:238-251 | Stacked `d`/`s`/`o` letters followed by enough plain tokens before the link each take one: the cluster ends as many tokens further on as it has letters, with a last shift of 1. |
| ResolverFacts.StackedLetterTakesItsToken | fuzzer.cpp:238-251 | In that setting the k-th letter is resolved at `i + k` and binds `argv[i+1+k]` to its own slot: letters take tokens in the order they are written. |
| ResolverFacts.UnmatchedTokenIsCluster | fuzzer.cpp:235-252 | A token that spells no option is expanded from its second character, whether or not it starts with `-`. With no letter there, it changes nothing and returns 0. |
| ResolverFacts.LoopVisitsIncreasing | fuzzer.cpp:258-262 | The indices handed to `searchParameters` strictly increase from the start index and all lie before the last argument, so the link is never resolved as an option. |
| ResolverFacts.LoopStepsByShift | fuzzer.cpp:261 | Consecutive visited indices differ by one plus the shift returned at the earlier one. |
| ResolverFacts.SingleKeepsFailuresFlagged | fuzzer.cpp:138-234 | Each option keeps the invariant "`-d`/`-s` requested but the wordlist unbound implies `error`", including the `-s` default branch, which tests `wordlistSubs`. |
| ResolverFacts.LettersKeepFailuresFlagged | fuzzer.cpp:238-251 | A cluster's letters keep that invariant. |
| ResolverFacts.SearchKeepsFailuresFlagged | fuzzer.cpp:130-253 | One call of `searchParameters` keeps that invariant. |
| ResolverFacts.LoopKeepsFailuresFlagged | fuzzer.cpp:255-263 | A pass of `loopParameters` keeps that invariant. |
| ResolverFacts.ResolveFlagsFailedOpens | fuzzer.cpp:280-291 | After the whole parse, a requested wordlist that is not bound always comes with `error`, so `main` takes the error path. |
| ResolverFacts.ShortCommandLineParsesNothing | fuzzer.cpp:258 | With at most the program name and the link, no index is visited and nothing changes. |
| Params.Parameters.constructor | fuzzer.cpp:99-107 | Every flag is false, the level is INFO, there is no link and no stream is open. |
| Params.SearchParameters | fuzzer.cpp:130-253 | The object ends in the state `Search` computes, and the returned shift is its shift. The link is untouched. |
| Params.ExpandCluster | fuzzer.cpp:235-252 | The in-place cluster loop leaves the state and shift `ClusterLoop` computes. Its loop invariant ties the state to the reference fold over the letters seen so far. |
| Params.LoopParameters | fuzzer.cpp:255-263 | The object ends in the state `LoopFrom` computes from index 1. The link is untouched. |
| Params.LoopTurn | fuzzer.cpp:258-262 | One loop turn leaves the state of `Search` and moves the index past the tokens it used. It preserves what the rest of the pass computes. |
| EntryPoint.Dispatch | fuzzer.cpp:270-302 | Every path returns 0. With only the program name, nothing is parsed and the error path is taken. Otherwise the link is exactly the last argument. The error text is chosen if and only if `error` is set, and the usage text if and only if `help` is set without `error`. |
| EntryPoint.Run | fuzzer.cpp:270-302 | `main` on a fresh `Parameters` object gives exactly `Dispatch`'s result. |
| EntryPoint.DirectoriesAndVerbose | fuzzer.cpp:270-302 | `fuzzer -d wordlist.txt -v http://example.com` binds the wordlist, sets DEBUG and proceeds with that link. |
| EntryPoint.StackedLetters | fuzzer.cpp:235-252 | `-sdo subs.txt dirs.txt out.log` binds the three files to the subdomain, directory and output slots, in that order. |
| EntryPoint.StackedResolve | fuzzer.cpp:255-263 | The whole pass over `fuzzer -sdo subs.txt dirs.txt out.log http://t` ends with exactly those three bindings. |
| EntryPoint.StackedCluster | fuzzer.cpp:270-302 | That command line reaches the fuzzing run with the link `http://t`. |
| EntryPoint.RepeatedVerbose | fuzzer.cpp:209-213 | `-v -v` resolves like `-v`. |
| EntryPoint.OutputMissingFile | fuzzer.cpp:214-221 | `fuzzer -o http://t` sets `error` and ends in the error text. |
| Findings.Span | fuzzer.cpp:258-262 | The set of indices between two bounds, empty when the bounds are crossed. |
| Findings.SpanMembers | fuzzer.cpp:258-262 | An index is in a span if and only if it lies between the bounds. |
| Findings.SpanJoin | fuzzer.cpp:258-262 | Two adjacent spans make one. |
| Findings.LettersClaimContiguous | fuzzer.cpp:238-251 | The tokens a cluster's letters take are exactly the contiguous ones after it, up to the index the loop reached. |
| Findings.SearchCorrected | fuzzer.cpp:251 | With the cluster returning the total advance, the resolved parameters are unchanged. The shift never reaches the link. |
| Findings.CorrectedShiftSkipsClaims | fuzzer.cpp:235-252 | The corrected shift skips exactly the tokens the call took as file arguments. |
| Findings.ClusterRereadsClaimedToken | fuzzer.cpp:238-262 | As written, in `fuzzer -dv wh.txt http://t`, index 2 is both taken as a file argument (`Claims` at 1 is {2}) and visited as an option, so the partition fails; its `h` turns on help. |
| Findings.PartitionsEmpty | fuzzer.cpp:258 | Nothing is left to split once the walk reaches the link. |
| Findings.PartitionsStep | fuzzer.cpp:261 | Visiting `i` and claiming the tokens up to the next visit keeps the split between options and file arguments exact. |
| Findings.WalkCorrected | fuzzer.cpp:255-263 | Corrected, every token between the program name and the link is either resolved as an option or taken as a file argument by an option (`Claims`), never both. |
| Findings.CorrectedClusterSkipsClaimedToken | fuzzer.cpp:251 | Corrected, `fuzzer -dv wh.txt http://t` leaves help off. |
| Findings.SubsDefaultGoesToDirectorySlot | fuzzer.cpp:188-202 | As written, `fuzzer -s http://t` binds the default subdomain list to `wordlistDirs` and sets `error`, even when that list opens. |
| Findings.SubsDefaultCorrected | fuzzer.cpp:188-202 | Corrected, the default list goes to `wordlistSubs`, `wordlistDirs` is untouched, and `error` is set exactly when `wordlistSubs` stays empty. |
| Findings.CorrectedSubsDefaultBinds | fuzzer.cpp:188-202 | Corrected, `-s` alone with the default list readable binds it and raises no error. |

## Left out

- **Real file I/O.** The `ifstream`/`ofstream` opens and `is_open` tests are replaced by the `FileSystem` oracle and `Option<string>` slots. Reading and writing the files is not modelled.
- **Console output.** The `cout`/`cerr` messages and the `printHelp`/`printError` text (fuzzer.cpp:110-128) are fixed strings with no logic. The model records which text `main` chooses, as `Outcome`.
- **The timestamp.** `time`, `localtime` and `strftime` (fuzzer.cpp:38-41) depend on the clock. The timestamp is an input string.
- **The `Logger` object.** Its construction, destruction, log-file sink and flush (fuzzer.cpp:22-32, 49-57) are left out; `main` never creates a `Logger`. `Logger::log` is modelled only through the line it builds, `Logging.LogEntry`. The source filters nothing by level, so there is no filtering to model.
- **Memory.** The `malloc` of each synthesized token (fuzzer.cpp:242) is never freed. This memory leak is not modelled.
- **The fuzzing engine.** The source has no code for it (fuzzer.cpp:299). `Outcome.Fuzz` marks where it would run.
- **Preconditions.** `Resolver.TokensOk` requires every token between the program name and the link to be non-empty: the cluster branch reads the second character of an empty C string past its terminator. `|args| >= 1` stands for `argv[0]` always being present.
- **Integer width.** `argc` and the indices are unbounded integers. They never exceed the number of arguments, so `int` overflow cannot occur.
- **Method structure.** The cluster branch of `searchParameters` is its own method (`Params.ExpandCluster`), and the body of the loop of `loopParameters` is its own method (`Params.LoopTurn`). The cluster loop advances a local copy of `i` rather than the parameter itself.
- **Embedded NULs.** `strcmp` compares C strings, so a token never holds `'\0'`. The model compares whole sequences.
- EntryPoint.ParseLink: no contract, because `parseLink` is the identity. `EntryPoint.Dispatch` states that the link is the last argument.

## Findings

| source | as written | input that shows it | evidently intended | confidence | as-written member | corrected member |
|---|---|---|---|---|---|---|
| fuzzer.cpp:251 | The cluster branch returns only the last letter's shift. An earlier letter's claimed token is then handed back to `loopParameters` and resolved again as an option. | `fuzzer -dv wh.txt http://t`: `wh.txt` is bound as the wordlist and then read as a cluster whose `h` turns on help | Return the total advance of the cluster, so each token between the program name and the link is either an option or a file argument (the usage text at fuzzer.cpp:121) | not executed | Findings.ClusterRereadsClaimedToken | Findings.WalkCorrected |
| fuzzer.cpp:191-192 | The default branch of `-s` opens the default subdomain list into `wordlistDirs`, then tests `wordlistSubs`. | `fuzzer -s http://t` with `/usr/share/wordlists/subs/medium.txt` readable: the list lands in the directory slot and the run ends in the error text | Open the default list into `wordlistSubs` and test that slot | not executed | Findings.SubsDefaultGoesToDirectorySlot | Findings.CorrectedSubsDefaultBinds |
