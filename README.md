# AI batch rename, modelled in Dafny

The repository renames the files of a folder with names suggested by a chat-completion
service. Its core is one batch-rename pipeline, run by two drivers:

- `BatchRenameGUI.process_files` (gui.py), the desktop worker. It renames automatically and
  watches the `is_processing` flag that the Stop button clears.
- `batch_rename_files` in ai_rename.py, the console driver. It previews each batch's renames
  and applies them only after the user answers `y`. Its `__main__` block reads the folder and
  the key from standard input.

Both drivers run the same steps:

- split the listing into batches;
- build a numbered prompt for each batch;
- parse the free-text reply line by line into `(index, name)` pairs;
- force the original extension onto each name;
- rename file by file, so that one failing rename does not stop the others.

Two smaller pieces sit beside the pipeline:

- the key verifier's `Config` object: a dotted lookup in a nested configuration, and a key
  cache with a seven-day expiry. Its `verify_key` accepts every key and logs it masked;
- the title-renaming command line (cli.py): the credential precedence per model family, the
  filtering of a title file, the layout of the results file, and the choice of input.

Modules:

| file | module | what it holds |
|---|---|---|
| text.dfy | `Text` | Python's `str.split`, `"\n".join`, `strip`, `isdigit`, `int`, `str` and `lower`, on ASCII, and position facts about joined sequences |
| batching.dfy | `Batching` | `range(0, n, b)` slicing, the batch count, batch numbers and the delay condition |
| listing.dfy | `Listing` | the numbered file listing and the prompt |
| reply_parser.dfy | `ReplyParser` | the reply parser and its round trip with the listing |
| extension.dfy | `Extension` | `os.path.splitext` and the extension fix-up |
| collect.dfy | `Collect` | `Keep`, a filter-map over sequences, and the laws about it |
| folder.dfy | `Folder` | the folder as a map from names to files, and `os.rename` on it |
| gui.dfy | `Gui` | the desktop worker, as functions over the run's state and as the class `BatchRenameGui` |
| gui_stop.dfy | `GuiStop` | what the Stop button can do to a run |
| gui_props.dfy | `GuiProps` | what a run renames, what it logs, and when it waits |
| ai_rename.dfy | `AiRename` | the console driver, as functions over a session and as methods over a `Terminal` |
| ai_props.dfy | `AiProps` | the confirmation gate, the preview mismatch and the corrected driver |
| key_verifier.dfy | `KeyVerifier` | `Config`, the key cache, the key mask and `verify_key` |
| cli.dfy | `Cli` | `get_api_keys`, `process_file`, `save_results` and the input choice in `main` |

How the environment is modelled:

- The chat service is a function `Service` from a batch number and a batch to an optional
  reply. `None` stands for a request that raised.
- The platform's rename is a `Refusal` oracle: it says which renames the platform refuses.
- The Stop button runs on another thread. The model reifies the race as a `StopRequest`: the
  press never comes, or it lands just before the worker's `n`-th read of the flag.
- The console is a `Terminal`: the lines standard input still holds, and the lines printed.
- Each driver has two layers. A method proved equal to a functional model of the same code,
  such as `Gui.BatchRenameGui.ProcessFiles` against `Gui.Run`, and lemmas about that
  functional model.

## Model

| member | source | states |
|---|---|---|
| Batching.BatchCountIsCeiling | gui.py:227 | the header's total `(n-1)//b + 1` is 0 for an empty folder, and otherwise the least `t >= 1` with `n <= t*b` |
| Batching.BatchesPartition | gui.py:232-237 | the batches, concatenated, give back the listing in order; there are as many as the header's total; batch `k` is `files[k*b : k*b+b]` with 1 to `b` files, and only the last may be shorter |
| Batching.DelayOnlyBetweenBatches | gui.py:316 | `i + b < n` holds exactly when the batch at `i` is not the last of the header's total |
| Batching.GatherNumbers | gui.py:232-238 | the batches from index `i` on are numbered `k+1, k+2, ...`, as many as there are batches left |
| Text.NatToStringRoundTrip | gui.py:245 | writing a count in decimal and reading it back gives the count |
| Text.JoinSplit | gui.py:276 | joining the parts of a split on the same character gives back the text |
| Text.SplitJoin | key_verifier.py:85 | splitting a join of parts that are free of the separator gives back the parts |
| Text.StripCharsSlice | gui.py:283 | `strip` removes a leading and a trailing run of the given characters and nothing else; the result is empty exactly when every character is one of them |
| Listing.NumberedLines | gui.py:244 | line `j` of the listing is `"{j+1}. {name}"` for the batch's `j`-th file |
| Listing.FileListLines | gui.py:244 | the joined listing, split on newlines, is the numbered lines again |
| Listing.PromptLines | gui.py:245-256 | split into lines, the prompt is the fixed introduction, then exactly the listing's lines, then the answer template |
| ReplyParser.LineEntry | gui.py:278-280 | a line has an entry only when its first character is a digit and the text before the first `". "` is all digits; the line is that digit run, `". "` and the rest |
| ReplyParser.AcceptEntry | gui.py:281-285 | an accepted entry has index `int(head) - 1` inside the batch and the rest as its name, trimmed and stripped of brackets; the name is never empty |
| ReplyParser.AcceptEntryDrops | gui.py:282-284 | an entry whose number is out of range or whose cleaned name is empty is dropped |
| ReplyParser.ParseLine | gui.py:277-285 | a kept pair comes from the line's entry: its index is the entry's number minus one, inside the batch, and its name is the cleaned rest, non-empty and without brackets at either end |
| ReplyParser.ParseReply | gui.py:275-285 | every kept pair has an index inside the batch and a non-empty name |
| ReplyParser.ParseReplyAround | gui.py:276-277 | the pairs of two replies joined by a newline are those of the first, then those of the second, in order, duplicates included |
| ReplyParser.ParseWellFormedLine | gui.py:278-282 | a line `"{digits}. {rest}"` is judged by its number and rest alone |
| ReplyParser.ListingRoundTrip | gui.py:244-285 | a reply that repeats the listing parses to each file at its own index, when the names carry no brackets or surrounding spaces |
| ReplyParser.CollectNewNames | gui.py:275-285 | the parsing loop builds exactly the pairs of `ParseReply`, each inside the batch and non-empty |
| Extension.SplitExt | gui.py:296 | the stem and the extension make up the name; the extension is empty or one dot followed by no dot |
| Extension.FixExtension | gui.py:297-298 | the result ends with the extension and starts with the name; it is the name exactly when the name already ends with the extension |
| Extension.FixExtensionIdempotent | gui.py:297-298 | fixing a fixed name changes nothing |
| Extension.FixExtensionKeepsExt | gui.py:296-298 | when the original has an extension and the proposed name is non-empty and does not start with a dot, the fixed name has the original's extension as its own extension |
| Extension.BareExtensionLosesExt | gui.py:296-298 | a proposed name equal to the extension itself is kept unchanged, and `splitext` then finds no extension in it |
| Extension.DotJpgLosesExt | gui.py:296-298 | for the file `a.jpg` and the proposed name `.jpg`, the fixed name is `.jpg`, which has no extension |
| Folder.RenameOutcome | gui.py:303-307 | a rename succeeds exactly when the source exists and the platform does not refuse; then it moves the file, and otherwise the folder is unchanged |
| Folder.RenameLosesOnlyOnCollision | gui.py:304 | a rename never creates content, and it loses a file exactly when it succeeds onto another existing name |
| Folder.MovedElsewhere | gui.py:304 | a rename leaves every other name as it was |
| Folder.FileSystem.Rename | gui.py:303-307 | the folder and the success flag are those `RenameOutcome` gives |
| Gui.Poll | gui.py:233 | after a read the flag is set exactly when it was set and no Stop press was due before it; the folder is unchanged and at most the stop is logged |
| Gui.RenameFrom | gui.py:290-309 | the rename loop only adds to the log, never sets the flag, and does nothing once the flag is clear |
| Gui.StartCheck | gui.py:150-162 | the run starts exactly when the trimmed folder is a directory and the trimmed key is not empty, with those trimmed values; a bad folder is reported before a missing key |
| Gui.KeyHint | gui.py:206 | the logged key keeps the last four characters and turns every earlier one into `*`; a key shorter than four is shown whole |
| Gui.Run | gui.py:187-331 | a run only adds to the log and leaves the flag clear; a batch size of 0 raises before any batch and only logs the error |
| Gui.BatchRenameGui.StartProcessing | gui.py:150-165 | the outcome is `StartCheck`'s, and the flag is set when the run starts |
| Gui.BatchRenameGui.StopProcessing | gui.py:176-180 | the flag is cleared and the stop is logged |
| Gui.BatchRenameGui.ReadFlag | gui.py:233 | one read of the flag, as `Poll` has it |
| Gui.BatchRenameGui.RenamePicks | gui.py:288-309 | the rename loop ends in the state `RenameFrom` gives |
| Gui.BatchRenameGui.ProcessBatch | gui.py:258-313 | one batch's request, parse and renames end in the state `BatchBody` gives |
| Gui.BatchRenameGui.UseReply | gui.py:286-309 | the parsed pairs are renamed, or their absence logged, as `UsePicks` says |
| Gui.BatchRenameGui.WaitIfMore | gui.py:316-319 | after a batch that is not the last, the flag is read once and the wait is logged only if it is still set; nothing else changes |
| Gui.BatchRenameGui.RunBatch | gui.py:235-319 | one pass of the batch loop ends in the state `OneBatch` gives |
| Gui.BatchRenameGui.ProcessFiles | gui.py:187-331 | the worker's run ends in the state `Run` gives, for the folder, the flag, the flag reads and the log |
| GuiStop.StopOnlyCutsShort | gui.py:233-292 | whenever the Stop button is pressed, the renames a run attempts are a prefix of those the same run attempts left alone |
| GuiStop.NothingAfterStop | gui.py:233-322 | once the worker has found the flag clear, the rest of the run changes neither the folder nor the log |
| GuiProps.LogReplaysRun | gui.py:298-309 | replaying the logged renames, with their logged outcomes, on the starting folder gives the folder the run leaves, whatever the replies, the platform and the Stop button do |
| GuiProps.RunLeftAlone | gui.py:232-323 | left alone, a run asks for exactly the renames its batches' replies plan, in batch order, and its last log line is the completion message |
| GuiProps.TargetsFromAt | gui.py:290-298 | counting from pair `j`, the rename for pair `k` moves the file that pair names to the pair's name with the file's extension forced on |
| GuiProps.BatchPlanKeepsExtension | gui.py:294-298 | every planned rename moves a file of its batch to a name that ends with that file's extension |
| GuiProps.HeadersCountBatches | gui.py:227-238 | left alone, a run announces batches `1, 2, ...`, as many as the header's total |
| GuiProps.WaitOnlyBeforeAnotherBatch | gui.py:316-319 | the wait after a batch is logged exactly when the flag is still set and the batch is not the last one |
| AiRename.Run | ai_rename.py:11-111 | a run only adds to the log; a batch size of 0 makes `range` raise after the listing is announced, and a negative one runs no batch |
| AiRename.LaunchCheck | ai_rename.py:119-124 | the run is launched exactly when the folder is a directory and the key is not empty; a bad folder is reported first |
| AiRename.Terminal.ReadLine | ai_rename.py:90 | `input()` takes the next line of standard input, or fails when there is none |
| AiRename.ShowPreview | ai_rename.py:78-88 | the preview prints one line per pair, in the pairs' order |
| AiRename.RenameAll | ai_rename.py:92-100 | the rename loop ends in the state `RenameFrom` gives, on the raw parsed names |
| AiRename.ConfirmAndRename | ai_rename.py:78-102 | the preview, question and renames end in the state `UsePicks` gives |
| AiRename.RunBatch | ai_rename.py:32-111 | one pass of the batch loop ends in the state `OneBatch` gives |
| AiRename.BatchRenameFiles | ai_rename.py:11-111 | the console run ends in the state `Run` gives, for the folder, standard input and the console |
| AiRename.RunScript | ai_rename.py:113-124 | the script block ends in the state `Script` gives |
| AiProps.ConfirmGate | ai_rename.py:78-102 | a batch renames its pairs, in order, exactly when the answer read is `y` in any case; otherwise it leaves the folder alone; an answer is consumed only when there were pairs to ask about |
| AiProps.PreviewIsShown | ai_rename.py:80-88 | the preview shows each pair's file with its name, the extension forced on |
| AiProps.AppliedIsShownIff | ai_rename.py:85-97 | the name renamed to is the name previewed exactly when the parsed name already ends with the file's extension |
| AiProps.PreviewMismatchExample | ai_rename.py:85-97 | for `a.jpg`, reply `1. b` and answer `y`, the preview shows `a.jpg -> b.jpg` while the file is renamed to `b` |
| AiProps.AsShownRenamesWhatIsShown | ai_rename.py:78-102 | after confirmation, the corrected batch renames exactly the moves that were previewed, and each keeps the file's extension |
| AiProps.ShownKeepExtension | ai_rename.py:84-86 | every previewed target ends with its file's extension |
| AiProps.RunRenamesConfirmed | ai_rename.py:30-111 | a run renames exactly the pairs of the batches answered `y`, in batch order; a failed request or exhausted input does not keep later batches from their turn |
| AiProps.NoYesNoRename | ai_rename.py:90-91 | without a `y` among the answers, a run renames nothing |
| AiProps.HeadersCountBatches | ai_rename.py:30-32 | a run announces batches `1, 2, ...`, as many as the header's total |
| AiProps.ScriptGate | ai_rename.py:113-124 | without both lines of input, or when the checks fail, nothing is renamed; otherwise the run is `batch_rename_files` with batch size 3 on the rest of the input |
| KeyVerifier.FindNest | key_verifier.py:88-94 | the lookup finds a value at the end of the path it is nested under |
| KeyVerifier.FindAppend | key_verifier.py:88-92 | looking up a longer path is looking up its head, then its tail in what was found |
| KeyVerifier.FindStops | key_verifier.py:89-92 | once a segment is missing, or the value is not a dictionary, no longer path finds anything |
| KeyVerifier.FindDotted | key_verifier.py:85-94 | a dotted key made of segments without dots looks up exactly those segments |
| KeyVerifier.DefaultBaseUrl | key_verifier.py:59-94 | with the default configuration, `api.base_url` yields the service's URL |
| KeyVerifier.Config.constructor | key_verifier.py:44-81 | a readable file is the configuration; otherwise the default is used, and saved when the folder is writable |
| KeyVerifier.Config.Get | key_verifier.py:83-94 | the value at the key's dotted path when every segment is found, and the default otherwise |
| KeyVerifier.Config.GetCachedKey | key_verifier.py:96-112 | the cached key as `CachedKey` has it: none without a readable cache or past its expiry |
| KeyVerifier.CacheRoundTrip | key_verifier.py:106-119 | a key cached at `t` is returned exactly at times up to `t + 604800` |
| KeyVerifier.NoExpireIsExpired | key_verifier.py:106 | a cache without an expiry counts as expired |
| KeyVerifier.ExpiryMonotone | key_verifier.py:106 | a cache hit at a later time was a hit with the same key earlier, and an expired key stays expired |
| KeyVerifier.Config.CacheVerifiedKey | key_verifier.py:114-125 | when the cache can be written, the key is returned for the next seven days; nothing else changes |
| KeyVerifier.Config.ClearKeyCache | key_verifier.py:127-133 | once the cache file is removed, no time finds a cached key |
| KeyVerifier.MaskKey | key_verifier.py:158 | the mask is the first four characters, `***`, and the last four only when the key is longer than eight |
| KeyVerifier.MaskHidesMiddle | key_verifier.py:158 | long keys that agree on their first and last four characters log the same mask |
| KeyVerifier.MaskShortKey | key_verifier.py:158 | a key of four to eight characters logs as its first four and `***` |
| KeyVerifier.VerifyKey | key_verifier.py:145-159 | every key is accepted, and the logged line ends with the key's mask |
| Cli.FirstSet | cli.py:192 | the argument when it is set, else the configured constant when it is not empty, else the environment variable |
| Cli.GetApiKeys | cli.py:175-223 | ernie models need both keys, the qwen family only the API key, spark and chatglm their one key with no secret; each key comes from the first source that sets it; other models need none |
| Cli.ArgumentsWin | cli.py:191-221 | keys given as arguments decide the result whatever the environment holds |
| Cli.ShippedConfigReadsEnvironment | cli.py:192-217 | with the shipped empty constants, a key not given as argument is the environment's |
| Cli.TitlesClean | cli.py:128 | every title read from a file is non-blank and already stripped |
| Cli.TitlesAppend | cli.py:128 | the titles of two runs of lines are those of each in order, and a blank line adds none |
| Cli.ProcessFile | cli.py:112-141 | the run fails exactly when the file cannot be read or a title's rename fails; otherwise it pairs each title, in file order, with its result |
| Cli.WriteSection | cli.py:158-167 | one result's lines are those of `Section` |
| Cli.SaveResults | cli.py:143-173 | the file's lines are the layout when the output can be written, and nothing is saved otherwise |
| Cli.LayoutShape | cli.py:154-159 | the file opens with the header and the model line, naming the model's description or else its name; its headings number the results from 1, and its original-title lines list them in order |
| Cli.SectionBody | cli.py:158-167 | a section holds the heading, the original, then one new-title line when `num == 1` or the variants numbered from 1 otherwise, and a blank line |
| Cli.VariantLinesNumbered | cli.py:165-166 | variant `j` is written as `"{j+1}. {variant}"` |
| Cli.ChooseInput | cli.py:255-264 | a file argument is used when set, else a title argument, else there is no input |
| Cli.FileWins | cli.py:255-258 | with a file argument, the title argument does not matter |
| Cli.Execute | cli.py:225-268 | the run only lists exactly when a listing option is set; it finishes exactly when the keys are there, the input is read and every title rewritten, and a needed save can be written, and every other run exits with status 1; a finished run pairs each title, in order, with its rewrite, and saves the layout exactly when an output path is set and there are results |

## Left out

- The tkinter interface is left out: widgets, the progress bar, `root.after` and message boxes (gui.py:17-185, 228-229, 241, 324, 328-334). They are presentation only; `StartCheck` keeps the decision that start_processing makes.
- The worker thread (gui.py:171-174) is not modelled as concurrency. The Stop press is a `StopRequest` schedule against the worker's reads of the flag.
- The OpenAI client, the SSL and proxy switches and the clearing of environment variables (gui.py:193-220, 258-272; ai_rename.py:15-24, 49-62) are left out. They are foreign network calls, so a batch's reply is the `Service` parameter and a raising request is `None`.
- The traceback logged on a failed batch (gui.py:313) is left out. It is the log line of an exception.
- `time.sleep` is left out. Only the decision to wait is modelled, as a `Waited` log entry.
- The folder listing itself (`os.listdir` and `isfile`, gui.py:223; ai_rename.py:26) is a parameter of each driver. The requirement `IsListing` ties it to the folder's names.
- `os.path.join` is left out: names that contain a path separator are renamed as plain keys of the folder.
- What the platform refuses is the `Refusal` oracle. The model does not say which platform refuses what.
- Characters are ASCII only: `isdigit`, `strip`, `lower` and `splitext` behave as on ASCII text, and the whitespace set is the ASCII one.
- The confirmation prompt (ai_rename.py:90) is the single event `Asked`; its exact text and its leading newline are left out.
- `check_expiration` (gui.py:40-63) is left out. It is clock and dialog logic outside the pipeline.
- The key verifier's logging handlers and log directory (key_verifier.py:17-36) are left out. `VerifyKey` returns its log line instead.
- `get_physical_mac` (key_verifier.py:135-143) is left out. It queries network interfaces.
- JSON parsing and writing are left out. The configuration file is `Missing`, `Broken` or a stored value, and the cache file is `NoCache`, `Unreadable` or a record.
- The configuration folder's `mkdir` (key_verifier.py:51) is left out: whether the files can be written is a parameter.
- KeyVerifier.Config.CacheVerifiedKey: a write that fails halfway, leaving a partial file, is not modelled; a failed write leaves the cache as it was.
- Times are integer seconds, where the source uses the float `time.time()`. JSON floats in the configuration are also left out.
- cli.py's `parse_args`, `print_styles`, `print_models` and `process_single_title` are left out (cli.py:21-110). They cover argument parsing, printing, and the `AIRenamer` class, which is not part of this model. A title's rename is the parameter `rename`, and `None` means it raised.
- Cli.Execute: the `AIRenamer` constructor's failures (cli.py:243-251) are not modelled; it is taken to succeed.
- Cli.Execute: cli.py:11 imports `AIRenamer` from ai_rename.py, which defines only `batch_rename_files` (ai_rename.py:11). As the files stand, importing cli.py fails with `ImportError` before `main` runs. `Execute` models `main` as if an `AIRenamer` class existed, with a title's rewrite as the parameter `rename`.
- The progress messages of `process_file` and `save_results` (cli.py:130, 133, 138, 169, 172) are left out. `ProcessFile` and `SaveResults` return to the caller, which stands for `sys.exit(1)`.
- Extension.FixExtensionKeepsExt: holds only for proposed names that are non-empty and do not start with a dot. The code accepts a reply name such as `.jpg` for `a.jpg` (gui.py:283-298) and keeps it as it is, and `splitext` reads the result as a dot-file with no extension (`Extension.DotJpgLosesExt`).
- Cli.ShowTitle: when `num == 1` and the renamer still returns a list, the list is written as Python's `repr` would write it, except that quotes inside a variant are not escaped.
- config.py is used only for its constants (config.py:12-25, 38-49). build.py and demo.py are not part of this model.

## Findings

| source | as written | input that shows it | evidently intended | confidence | as-written member | corrected member |
|---|---|---|---|---|---|---|
| ai_rename.py:85-97 | the preview loop forces the extension onto a local copy of the name, but the rename loop uses the name as parsed | file `a.jpg`, reply `1. b`, answer `y`: the preview shows `a.jpg -> b.jpg`, and the file becomes `b` | rename to the name that was previewed, with the extension kept, as gui.py:296-304 does | not executed | AiProps.PreviewMismatchExample | AiProps.AsShownRenamesWhatIsShown |

The as-written batch is `AiRename.UsePicks`; the corrected one is `AiProps.UsePicksAsShown`.
The console driver's methods follow the code as written.

All pairs of a reply are kept in reply order, duplicate indices included, and a line such as `3. garbage line` yields the name `garbage line` (gui.py:276-285; see `ReplyParser.ParseReplyAround` and `ReplyParser.AcceptEntry`).
