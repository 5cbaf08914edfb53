# Lux: the dynamic function lifecycle engine, modelled in Dafny

Lux is a desktop assistant that can write new functions for itself at run time.
A request in natural language goes to a classifier. The classifier answers
`YES - name` (run a known function), `NEW - name description` (create one) or
something else (not a function request). New code comes from a language model.
Before it is kept, the code must pass these gates:

- a static security analysis over its syntax tree and its text;
- a syntax and import check;
- a test that may ask the model to repair the code, a bounded number of times;
- a dependency check against a pinned allow-list, with installation of missing packages;
- a permission gate that refuses high-risk capabilities.

Only code that passes every gate is written to `resources/functions`, granted its
permissions, imported, registered and tried. Known functions run in a sandbox that
reports success or failure uniformly. The outcome updates the registry's usage
statistics and the execution metrics, and the answer goes through a translator.

The project has one module per source file of the engine, plus three shared modules:

| module | file | models |
|---|---|---|
| `Base` | base.dfy | Python string and list builtins the engine relies on (`lower`, `strip`, `split`, `split(c, 1)`, `replace`, `in`, slices, `str(n)`) |
| `PyAst` | pyast.dfy | the syntax tree the checks look at and `ast.walk` as a breadth-first visit |
| `StrFormat` | strformat.dfy | `str.format` with keyword arguments, as the feedback templates use it |
| `Executor` | executor.dfy | `SafeExecutor`: the fields it keeps between runs and what `execute` gives for each way a run can end |
| `Registry` | registry.dfy | the live `FunctionRegistry` (lux/core/function_registry.py) |
| `LegacyRegistry` | legacy_registry.dfy | the older registry in lux/app/core/function_registry.py |
| `Permissions` | permissions.dfy | the capability catalogue, detection and grants |
| `Dependencies` | dependencies.dfy | import classification, installation and per-function records |
| `Security` | security.dfy | `SecurityAnalyzer` and every check it runs |
| `TestManager` | testing.dfy | validation, the test and the bounded repair chain |
| `Feedback` | feedback.dfy | error templates, related functions and result formatting |
| `Logs` | logs.dfy | the metrics kept per function by `log_execution` |
| `Router` | router.dfy | `FunctionManager`: request analysis, creation gates, execution |
| `AiManager` | aimanager.dfy | `AIManager`: intents, suggestions, verdict parsing, unique names, creation |
| `AiService` | aiservice.dfy | `AIService`: code clean-up, import scan, fallbacks, suggestion parsing |
| `Notifications` | notifications.dfy | the notification queue and its history |

Objects whose methods update their fields are classes, specified against the old
state: `FunctionRegistry`, `LegacyRegistry`, `PermissionManager`,
`DependencyManager`, `SecurityAnalyzer`, `LogManager`, `FeedbackManager`,
`FunctionManager`, `SafeExecutor`, `AIManager` and `NotificationService`. Pure helpers and
expressions are functions, and the loops of the source are methods with invariants.

Several collaborators cannot be modelled, so their answers become parameters:

- the language model's replies (`AiService.Reply`);
- how the function's thread ended in a sandboxed run (`Executor.RunEvent`), and whether the `finally` of `execute` finds a directory to return to (`restoresDirectory`);
- the host's parser, `unparse` and regular expressions (`Security.Oracles`);
- `compile`, pip, the version order and the package listing;
- importing a written file (`Router.ModuleLoad`);
- `difflib.get_close_matches`;
- the clock, as a timestamp string.

Files on disk are values: the registry's saved projection, the per-function
metrics and execution logs, and the written sources.


## Model

| member | source | states |
|---|---|---|
| Base.GetOr | lux/app/core/function_manager.py:82 | `dict.get(key, default)`: the stored value when there is one, the default otherwise |
| Base.ContainsIffOccurs | lux/app/core/permission_manager.py:90 | `sub in s` holds exactly when `sub` occurs at some position of `s` |
| Base.ContainsAppend | lux/app/core/permission_manager.py:96 | a substring of either part is a substring of their concatenation, in either order |
| Base.LowerChar | lux/app/core/ai_manager.py:79 | `str.lower` on one character: ASCII capitals move by 32, characters that are not capitals are kept |
| Base.Lower | lux/app/core/ai_manager.py:79 | `str.lower` keeps the length and lowers each character in place |
| Base.LowerIdempotent | lux/app/core/ai_manager.py:409 | lowering text already lowered changes nothing |
| Base.StripLeft | lux/app/core/ai_manager.py:53 | `lstrip` removes the longest prefix of stripped characters: what is left is empty or starts with a kept character |
| Base.StripLeftSuffix | lux/app/core/ai_manager.py:53 | what `lstrip` keeps is a suffix of the text |
| Base.StripRight | lux/app/core/ai_manager.py:263 | `rstrip` removes the longest suffix of stripped characters and keeps the rest as a prefix |
| Base.StripCharsShape | lux/app/core/function_manager.py:192 | stripped text is a contiguous piece of the input that neither starts nor ends with a stripped character |
| Base.StripIdempotent | lux/app/core/function_manager.py:474 | stripping twice is stripping once |
| Base.StripOfTrimmed | lux/app/core/function_manager.py:485-486 | text that neither starts nor ends with whitespace is left as it is |
| Base.Split | lux/app/core/function_manager.py:187 | `split(c)` gives at least one part, and no part contains `c` |
| Base.JoinSplit | lux/app/core/function_manager.py:187 | joining the parts of a split with the separator gives back the text |
| Base.SplitJoin | lux/app/core/function_manager.py:248 | splitting a join of separator-free parts gives back the parts |
| Base.SplitWithout | lux/app/core/function_manager.py:187 | text without the separator splits into itself alone |
| Base.SplitAtFirst | lux/app/core/function_manager.py:187 | a split cuts at the first separator and splits the rest in turn |
| Base.FirstIndex | lux/app/core/function_manager.py:481 | the position of the first occurrence of a character, or the length when there is none |
| Base.SplitOnce | lux/app/core/function_manager.py:481 | `split(c, 1)`: the text alone when `c` does not occur, otherwise the part before the first `c` and everything after it |
| Base.ReplaceAbsent | lux/app/core/function_manager.py:474 | replacing a pattern that does not occur leaves the text unchanged |
| Base.ReplacePrefixOnly | lux/app/core/function_manager.py:481 | removing a prefix that occurs nowhere else leaves exactly the rest |
| Base.LastN | lux/app/core/log_manager.py:155 | `s[-n:]` for a positive `n`: all of `s` when it is short enough, otherwise its last `n` elements |
| Base.AppendThenLastN | lux/app/core/log_manager.py:149-155 | appending and then keeping the last `n` keeps the new element last and drops at most the oldest one |
| Base.NatToString | lux/app/core/ai_manager.py:320-323 | `str(n)` for a count is a non-empty string of digits |
| Base.NatToStringRoundTrip | lux/app/core/ai_manager.py:320-323 | reading the digits back gives the number |
| Base.NatToStringInjective | lux/app/core/ai_manager.py:320-323 | different numbers give different strings |
| PyAst.Walk | lux/app/core/security_analyzer.py:102 | `ast.walk` yields the tree's root first and one entry per node |
| PyAst.Bfs | lux/app/core/dependency_manager.py:35 | the breadth-first queue visit yields one entry per queued node, starting with the head of the queue |
| PyAst.WalkVisitsAll | lux/app/core/test_manager.py:155 | `ast.walk` reaches every node of the tree and nothing else |
| PyAst.BfsVisitsAll | lux/app/core/security_analyzer.py:124 | the queue visit reaches exactly the nodes of the queued trees |
| PyAst.NodesOfChild | lux/app/core/security_analyzer.py:173 | the nodes under a child are nodes of its parent, so a walk from a node sees its children's subtrees |
| PyAst.AnyKindOfChild | lux/app/core/security_analyzer.py:253 | a kind found by walking a child is found by walking its parent |
| StrFormat.FormatLiteral | lux/app/core/feedback_manager.py:50-51 | `str.format` copies text without braces unchanged |
| StrFormat.FormatAfterLiteral | lux/app/core/feedback_manager.py:50-51 | brace-free text in front of a template is copied in front of the formatted rest, and the whole fails when the rest fails |
| StrFormat.FormatField | lux/app/core/feedback_manager.py:50-51 | a `{key}` field is replaced by its keyword argument, and formatting raises without one |
| StrFormat.FormatOneField | lux/app/core/feedback_manager.py:50-51 | a template with one field formats to the text with the argument in place, or fails exactly when the argument is missing |
| StrFormat.FormatTwoFields | lux/app/core/feedback_manager.py:50-51 | the same for two fields: it succeeds exactly when both arguments are given |
| Executor.Report | lux/app/core/safe_executor.py:79-109 | the dictionary built from the fields after the run: a success exactly when the thread did not time out and no error is left (an empty message counts as none), with the value `self.result` holds, `max_time` and 0; a timeout gives its message; a left error gives its text as a runtime failure; never the `resource_limit` kind |
| Executor.SafeExecutor.constructor | lux/app/core/safe_executor.py:20-25 | a new executor has no result and no error |
| Executor.SafeExecutor.Execute | lux/app/core/safe_executor.py:47-116 | the fields take the run (a returned value sets the result, an exception's message the error, a timeout neither); the call raises the missing-directory error when its `finally` cannot find the removed directory, and otherwise returns the report of the new fields |
| Executor.FieldsAfterHistory | lux/app/core/safe_executor.py:23-69 | after any series of runs the fields hold the value of the last run that returned and the message of the last run that raised |
| Executor.ReportAfterHistory | lux/app/core/safe_executor.py:64-90 | after any earlier runs: a timeout or an exception with a message reports itself; a run that returns reports the last earlier message when there is one, otherwise success with its value; an exception with an empty message reports success with the last value returned |
| Executor.FirstRunReportsItself | lux/app/core/safe_executor.py:20-116 | a fresh executor whose `finally` finds its directory returns the report of each run itself: its value, its message or its timeout |
| Executor.StaleErrorPersists | lux/app/core/safe_executor.py:67-83 | once a run has raised a message, a later run that returns still fails with that message |
| Executor.AsWrittenAlwaysRaises | lux/app/core/safe_executor.py:110-112 | as written every call raises from its `finally`; with a `finally` that finds its directory every call returns a dictionary |
| Notifications.NotificationService.constructor | lux/app/services/notification_service.py:12-29 | the queue starts empty, nothing is showing, and the history is what the history file held |
| Notifications.NotificationService.Notify | lux/app/services/notification_service.py:31-55 | the notification, with `data` defaulting to an empty dictionary, joins the back of the queue and the history, which keeps at most 100 entries with the new one last; the showing flag and what was displayed do not change |
| Notifications.NotificationService.SaveNotification | lux/app/services/notification_service.py:86-106 | the history becomes the last 100 of the old history plus the new notification; that notification is last and the 99 before it are the old history's last 99 |
| Notifications.NotificationService.ProcessQueue | lux/app/services/notification_service.py:57-80 | with an empty queue or a notification on display nothing changes; otherwise the oldest waiting notification leaves the queue, is displayed, and the flag is raised |
| Notifications.NotificationService.ResetShowing | lux/app/services/notification_service.py:82-84 | the flag is lowered and nothing else changes |
| Notifications.ShownInOrder | lux/app/services/notification_service.py:53-62 | notifications are displayed first in, first out: what was displayed is a prefix of everything received and the queue is the rest |
| Notifications.FullHistoryDropsOldest | lux/app/services/notification_service.py:99-102 | once the history holds 100 notifications, appending one drops exactly the oldest |
| LegacyRegistry.LegacyRegistry.constructor | lux/app/core/function_registry.py:9-25 | the registry is what the file holds, or empty with an empty file written when there is none |
| LegacyRegistry.LegacyRegistry.RegisterFunction | lux/app/core/function_registry.py:35-55 | as written, every registration fails: the record needs `datetime`, which the module never imports; nothing is stored or saved |
| LegacyRegistry.LegacyRegistry.RegisterFunctionFixed | lux/app/core/function_registry.py:35-52 | with the import in place, the record is stored under the name, replacing any earlier one, the file is saved, and a lookup finds it; the extension is `.py` unless it is given |
| LegacyRegistry.LegacyRegistry.GetFunctionInfo | lux/app/core/function_registry.py:57-59 | None exactly for an unregistered name, else that name's record |
| LegacyRegistry.LegacyRegistry.RemoveFunction | lux/app/core/function_registry.py:61-72 | true exactly when the name was registered; afterwards it is absent, the other records are unchanged, and the file is rewritten only after a removal |
| LegacyRegistry.LegacyRegistry.GetAllFunctions | lux/app/core/function_registry.py:74-76 | a copy of the registry: the names it holds are exactly those a lookup finds |
| LegacyRegistry.RegisterThenLookup | lux/app/core/function_registry.py:43-48 | as written, a name registered into a fresh registry is still unknown afterwards |
| LegacyRegistry.RegisterFixedThenLookup | lux/app/core/function_registry.py:43-52 | with the import in place, the same registration is found with the record it stored |
| Permissions.CatalogDistinct | lux/app/core/permission_manager.py:20-51 | the six catalogue entries have six different names, and an entry is in the catalogue exactly when looking up its name finds it |
| Permissions.Lookup | lux/app/core/permission_manager.py:20-51 | a name is found exactly when it is one of the six catalogue names, and then the entry found has that name |
| Permissions.CatalogRisks | lux/app/core/permission_manager.py:21-50 | the risk levels: file_read medium, file_write high, network_access high, system_exec critical, gui_access low, input_device medium |
| Permissions.NamesFor | lux/app/core/permission_manager.py:87-106 | from the answers to the six substring tests: file_write exactly when the code opens and writes, file_read when it opens without writing, and each other name exactly when its test holds |
| Permissions.RequiredNames | lux/app/core/permission_manager.py:85-106 | the detected names are always catalogue names |
| Permissions.AnalyzeRequiredPermissions | lux/app/core/permission_manager.py:108-112 | no entry is listed twice, and an entry is listed exactly when it is in the catalogue and its name was detected |
| Permissions.HasIff | lux/app/core/permission_manager.py:108-112 | a catalogue name is among the analysed permissions exactly when the text detects it |
| Permissions.DetectsFileAccess | lux/app/core/permission_manager.py:90-94 | file access is detected by `open(` or `Path(`; it is writing exactly when `write` or `create` also occurs, reading otherwise, and never both |
| Permissions.DetectsNetwork | lux/app/core/permission_manager.py:96-97 | network access is required exactly when `socket`, `urllib` or `requests` occurs |
| Permissions.DetectsSystemExec | lux/app/core/permission_manager.py:99-100 | command execution is required exactly when `subprocess` or `os.system` occurs |
| Permissions.DetectsGui | lux/app/core/permission_manager.py:102-103 | a user interface is required exactly when `pygame` or `tkinter` occurs |
| Permissions.DetectsInput | lux/app/core/permission_manager.py:105-106 | input devices are required exactly when `input(` or `keyboard` occurs |
| Permissions.AtMostFive | lux/app/core/permission_manager.py:87-112 | no code needs more than five permissions, because the two file permissions exclude each other |
| Permissions.PermissionManager.constructor | lux/app/core/permission_manager.py:15-66 | with no permissions file on disk, nothing is granted and an empty file is written |
| Permissions.PermissionManager.GrantPermissions | lux/app/core/permission_manager.py:114-129 | succeeds exactly when every requested name is in the catalogue; then the function's grant becomes exactly the requested set and is saved; otherwise nothing changes |
| Permissions.PermissionManager.CheckPermissions | lux/app/core/permission_manager.py:131-137 | false for a function with no entry, even when nothing is required; otherwise true exactly when the required names are a subset of the granted ones |
| Permissions.PermissionManager.GetFunctionPermissions | lux/app/core/permission_manager.py:139-148 | empty for a function with no entry; otherwise exactly the catalogue entries whose names were granted |
| Permissions.PermissionManager.RevokePermissions | lux/app/core/permission_manager.py:150-164 | without a list the function's entry is removed; with a list those names leave an existing entry and a missing entry stays missing; other functions keep their grants; the file is rewritten |
| Permissions.GrantCheckRevoke | lux/app/core/permission_manager.py:114-155 | granting catalogue names then checking them succeeds; after a full revoke the same check fails |
| Dependencies.TopLevel | lux/app/core/dependency_manager.py:38 | the top-level name `name.split('.')[0]` contains no dot |
| Dependencies.TopLevelOfDotted | lux/app/core/dependency_manager.py:38-41 | the top level of a dotted name is its first segment, and a name without a dot is its own top level |
| Dependencies.ImportsInContains | lux/app/core/dependency_manager.py:35-41 | every node the walk visits contributes its import names to the collected set |
| Dependencies.CollectImports | lux/app/core/dependency_manager.py:32-41 | the loop over `ast.walk` collects exactly the top-level names of every `import` alias and of every `from` statement that names a module |
| Dependencies.AliasTops | lux/app/core/dependency_manager.py:37-38 | the inner loop collects exactly the top-level names of the aliases of one `import` |
| Dependencies.Requests | lux/app/core/dependency_manager.py:79-82 | pip is asked for at most one `name==version` spec per listed name |
| Dependencies.PinnedVersions | lux/app/core/dependency_manager.py:121-125 | the recorded versions map exactly the allowed names among the dependencies, each to its pin |
| Dependencies.DependencyManager.constructor | lux/app/core/dependency_manager.py:13-22 | the installed-package snapshot is the environment's, and there is no dependencies file yet |
| Dependencies.DependencyManager.AnalyzeDependencies | lux/app/core/dependency_manager.py:24-68 | unparsable code gives two empty lists; otherwise a name is required exactly when it is an external import that is allowed and missing or older than its pin, and is a conflict exactly when it is an external import that is not allowed; no name is in both lists or twice in one |
| Dependencies.DependencyManager.Classify | lux/app/core/dependency_manager.py:51-59 | the loop over external names puts each allowed, missing or outdated one in `required` and each disallowed one in `conflicts`, with no repeats |
| Dependencies.DependencyManager.InstallDependencies | lux/app/core/dependency_manager.py:70-99 | success exactly when pip accepts every pinned spec; then the specs were asked for in order and the snapshot is refreshed; a failure stops at the first refused spec, after the earlier accepted ones, and keeps the snapshot |
| Dependencies.DependencyManager.SaveFunctionDependencies | lux/app/core/dependency_manager.py:111-132 | the function's record is overwritten with its list and the pins of its allowed names; every other record stays as it was |
| Dependencies.DependencyManager.GetFunctionDependencies | lux/app/core/dependency_manager.py:134-143 | empty without a file or without a record for the function; otherwise that record's versions |
| Dependencies.RequestsAppend | lux/app/core/dependency_manager.py:79-91 | the specs for two lists one after the other are the first list's specs followed by the second's |
| Dependencies.RequestsSplit | lux/app/core/dependency_manager.py:79-91 | the specs for a list are those of any prefix followed by those of the rest |
| Dependencies.RequestsArePinned | lux/app/core/dependency_manager.py:80-82 | every spec sent to pip names an allowed listed package at its pinned version |
| Dependencies.ImportShapes | lux/app/core/dependency_manager.py:36-41 | `from . import x` contributes no module; `import a.b` contributes `a` |
| Logs.ZeroMetricsValid | lux/app/core/log_manager.py:120-131 | a function without a metrics file starts from all-zero counters, no last execution and an empty history, which satisfies the metrics invariant |
| Logs.UpdatedValid | lux/app/core/log_manager.py:133-155 | one update keeps the invariant: successes plus errors equal the executions, the averages are the totals over the count, and the history holds at most 100 entries and no more than there were calls |
| Logs.UpdatedCounts | lux/app/core/log_manager.py:134-155 | one update counts one more execution, as a success exactly when the run succeeded and otherwise as an error, records the time of the call, and puts the new entry last, after the previous 99 in their order |
| Logs.Entries | lux/app/core/log_manager.py:149-154 | one history entry per call |
| Logs.LastNAppend | lux/app/core/log_manager.py:155 | cutting the history to 100 after every append keeps the same entries as appending everything and cutting once at the end |
| Logs.MetricsAfterValid | lux/app/core/log_manager.py:100-161 | metrics built only by calls of `log_execution` from no file always satisfy the invariant |
| Logs.MetricsAfterCounts | lux/app/core/log_manager.py:134-144 | after a run of calls from no file, the counters are the numbers of calls, successes and failures, and the totals are the sums of the calls' times and memory |
| Logs.MetricsAfterHistory | lux/app/core/log_manager.py:149-155 | after a run of calls the history is the entries of the last 100 calls, oldest first |
| Logs.MetricsAfterMean | lux/app/core/log_manager.py:141-144 | after at least one call the averages are the means over all calls, failures included |
| Logs.TotalTimeIsMaxTimePerSuccess | lux/app/core/log_manager.py:140 | because the executor reports its 30-second limit as the time of every success and no time for a failure, the recorded total is 30 seconds per success |
| Logs.LogManager.constructor | lux/app/core/log_manager.py:9-18 | no log, metrics or error file yet, and the `executions` and `metrics` sub-directories exist only if the disk already had them |
| Logs.LogManager.SetupLogging | lux/app/core/log_manager.py:71-82 | both sub-directories exist afterwards and no file changes |
| Logs.LogManager.LogExecution | lux/app/core/log_manager.py:100-161 | the call raises exactly when the `executions` directory is missing, and then nothing changes; otherwise one record is appended to the function's log and, when the metrics directory exists, its metrics file becomes the update of what it held (zero without a file); other functions' files are untouched |
| Logs.LogManager.LogError | lux/app/core/log_manager.py:46-66 | one error record, with the time, name, message and context, is appended both to `errors.log` and to the function's `functions/<name>_errors.log`, the two files keep agreeing, and the execution logs and metrics do not change |
| Logs.WithErrorAgrees | lux/app/core/log_manager.py:57-66 | when every function's error file holds exactly its records of `errors.log`, writing one record to both keeps that so; the function's own file grows by exactly that record and every other file stays as it was |
| Logs.LogManager.GetFunctionMetrics | lux/app/core/log_manager.py:163-170 | nothing (`{}`) when there is no metrics file for the function, else the file's contents |
| Logs.CurrentValid | lux/app/core/log_manager.py:117-131 | what an update starts from, the file's metrics or the zero metrics, satisfies the invariant |
| Logs.AllValidUpdate | lux/app/core/log_manager.py:157-158 | writing valid metrics for one function keeps every metrics file valid |
| Registry.ChooseDescription | lux/core/function_registry.py:76 | the description falls back from the argument to the function's docstring to "Sin descripción", skipping empty ones, and is never empty |
| Registry.UsageUpdated | lux/core/function_registry.py:182-195 | one more use: the count grows by one and the average times the count grows by exactly the new time, so the average remains the mean |
| Registry.ErrorCounted | lux/core/function_registry.py:251-264 | one more error, and a success rate is recorded, which is 0 when the function was never used |
| Registry.UsagesKeepTotal | lux/core/function_registry.py:187-189 | after a series of uses the count has grown by their number and the average times the count has grown by the sum of their times |
| Registry.AverageIsMean | lux/core/function_registry.py:180-197 | after N uses of a fresh record the average execution time is the mean of the N times |
| Registry.SuccessRateRange | lux/core/function_registry.py:256-259 | the rate is not clamped: it lies between 0 and 100 exactly when errors do not exceed uses, and is negative otherwise |
| Registry.Project | lux/core/function_registry.py:38-50 | the file keeps ten fields, each defaulted when missing; the error count, success rate, function type, update time and backup history are dropped |
| Registry.SnapshotContents | lux/core/function_registry.py:37-50 | the saved file holds exactly the registered names, each with its projected record |
| Registry.ReloadForgetsErrors | lux/core/function_registry.py:38-50 | a record read back from the file reports no errors and a full success rate whatever the live record said, while usage survives |
| Registry.FunctionRegistry.constructor | lux/core/function_registry.py:13-25 | with no file on disk yet, the registry starts empty and an empty file is written |
| Registry.FunctionRegistry.SaveRegistry | lux/core/function_registry.py:31-56 | the loop over the records in insertion order writes the projection of every record, and the live records do not change |
| Registry.FunctionRegistry.Register | lux/core/function_registry.py:58-94 | always succeeds; the name's record, old or new, is replaced by a fresh one; a new name joins the end of the insertion order, so the key count grows by at most one; the file is saved |
| Registry.FunctionRegistry.BackupFunction | lux/core/function_registry.py:150-178 | for a present record with a file path, an existing source file and a successful copy, one backup with the time, the version (default 1.0.0) and the backup path is appended to its history; in every other case and for every other record nothing changes, and nothing is saved |
| Registry.FunctionRegistry.UpdateUsage | lux/core/function_registry.py:180-197 | a present name gets one more use with the new time and the file is saved; an absent name changes nothing |
| Registry.FunctionRegistry.IncrementErrorCount | lux/core/function_registry.py:249-265 | a present name gets one more error and the recomputed success rate, and the file is saved; an absent name changes nothing |
| Registry.FunctionRegistry.SetEnabled | lux/core/function_registry.py:219-229 | enabling or disabling changes only the `enabled` field of a present record and saves; an absent name changes nothing; afterwards the name reads as enabled exactly when it is present and was enabled |
| Registry.FunctionRegistry.IsFunctionEnabled | lux/core/function_registry.py:231-233 | false for an unknown name and for a record without an `enabled` field |
| Registry.FunctionRegistry.GetFunctionInfo | lux/core/function_registry.py:199-201 | the name's record, or the empty record for an unknown name |
| Registry.FunctionRegistry.GetDescription | lux/core/function_registry.py:203-205 | nothing for an unknown name; a description found is the record's own |
| Registry.FunctionRegistry.SearchExact | lux/core/function_registry.py:211-217 | the search returns, unchanged, exactly the records whose lowercased name or description contains the lowercased query |
| Registry.FunctionRegistry.SearchIgnoresCase | lux/core/function_registry.py:213 | searching for the lowercased query finds the same records as the query itself |
| Registry.FunctionRegistry.SearchEmptyFindsAll | lux/core/function_registry.py:211-217 | the empty query finds every record |
| Registry.FunctionRegistry.GetFunctionStats | lux/core/function_registry.py:235-247 | nothing for an unknown name; otherwise the five statistics, with 0, 0, None, 0 and 100 for missing fields |
| Registry.RegisterGivesFreshStats | lux/core/function_registry.py:74-87 | a registered record is enabled and reports no uses, no errors, no last use and a full success rate, with the type defaulting to "utility" |
| Feedback.Fallback | lux/app/core/feedback_manager.py:68-73 | the message used whenever formatting raises: "Error: " with the `error` argument, or "desconocido" without one, and the action "Por favor, intenta de nuevo." |
| Feedback.ExecutionActionFormat | lux/app/core/feedback_manager.py:19-51 | the execution-error action formats exactly when `reason` and `suggestion` are passed, and then reads "Esto puede deberse a <reason>. Sugerencia: <suggestion>" |
| Feedback.ExecutionMessageFormat | lux/app/core/feedback_manager.py:18-50 | the execution-error message formats exactly when `name` and `error` are passed, and then names both |
| Feedback.ExecutionErrorFallsBack | lux/app/core/feedback_manager.py:17-73 | without `reason` or `suggestion` the execution-error message is always the fallback, whatever else is passed |
| Feedback.CallersGetFallback | lux/app/core/feedback_manager.py:150-161 | the two arguments the callers pass, `name` and `error`, always give "Error: <error>" and the generic action |
| Feedback.ExecutionErrorFilled | lux/app/core/feedback_manager.py:17-66 | with all four arguments the execution-error template is filled in as written |
| Feedback.UnknownTypeUsesDefault | lux/app/core/feedback_manager.py:44-47 | an unknown error type uses the "Error desconocido" template when `error` is passed, and falls back otherwise |
| Feedback.NotFoundNeedsSuggestionsArgument | lux/app/core/feedback_manager.py:13-61 | the not-found template formats only when the caller passes `suggestions` itself; otherwise the first `format` raises, the registry's suggestions are never used, and the fallback is returned |
| Feedback.InsertDesc | lux/app/core/feedback_manager.py:123-127 | insertion into the sorted list adds exactly one element |
| Feedback.SortDesc | lux/app/core/feedback_manager.py:123-127 | the sort keeps the length |
| Feedback.InsertPermutes | lux/app/core/feedback_manager.py:123-127 | inserting adds exactly the new element to the multiset |
| Feedback.SortPermutes | lux/app/core/feedback_manager.py:123-127 | the sort is a permutation of the related list |
| Feedback.InsertSorted | lux/app/core/feedback_manager.py:123-127 | inserting keeps the list ordered by shared tags, largest first |
| Feedback.InsertStable | lux/app/core/feedback_manager.py:123-127 | among elements with the same number of shared tags, the inserted one comes after those already there |
| Feedback.SortDescSortedStable | lux/app/core/feedback_manager.py:123-127 | the sort orders by number of shared tags, largest first, and keeps the original order among equal counts, as Python's stable `sorted(..., reverse=True)` does |
| Feedback.Take3 | lux/app/core/feedback_manager.py:127 | the cut keeps the first three elements, or all when there are fewer |
| Feedback.CandidatesSound | lux/app/core/feedback_manager.py:108-121 | every candidate comes from another registered function that shares a tag or the type |
| Feedback.CandidatesComplete | lux/app/core/feedback_manager.py:108-121 | every other registered function that shares a tag or the type becomes a candidate |
| Feedback.CandidatesExact | lux/app/core/feedback_manager.py:108-121 | the candidates are exactly the related other functions, each with the tags it shares |
| Feedback.TopThree | lux/app/core/feedback_manager.py:123-127 | the first three after sorting are ordered, drawn from the candidates, and nothing left out shares more tags than anything kept |
| Feedback.RelatedFunctionsSpec | lux/app/core/feedback_manager.py:93-127 | for a registered function, at most three others, never itself, each related by a tag or the type and carrying the shared tags, the most shared first, with nothing left out sharing more |
| Feedback.RelatedOfUnknown | lux/app/core/feedback_manager.py:100-102 | an unknown name has no related functions |
| Feedback.RelatedLinesSnoc | lux/app/core/feedback_manager.py:144-145 | one more related function adds exactly its line `\n- name: description` at the end |
| Feedback.WithRelated | lux/app/core/feedback_manager.py:142-145 | the loop produces the result, the header, and one line per related function, in order |
| Feedback.FailedResultText | lux/app/core/feedback_manager.py:149-161 | a failed execution is always shown as "Error: <error>" followed by a newline and the generic action |
| Feedback.SuccessTextKeepsResult | lux/app/core/feedback_manager.py:133-165 | a successful result is the start of what is shown, and is all of it exactly when nothing is related or the value is not a `str` (the first `+=` then raises `TypeError` and the handler answers the value's text) |
| Feedback.FeedbackManager.constructor | lux/app/core/feedback_manager.py:10-11 | the manager reads the registry it is given |
| Feedback.FeedbackManager.Suggestions | lux/app/core/feedback_manager.py:75-91 | no close match gives no suggestion text |
| Feedback.FeedbackManager.SuggestionsAreMatchLines | lux/app/core/feedback_manager.py:75-91 | with at least one close match and no line break inside a line, the text splits on line breaks into exactly one `- name: description` line per match, in the matcher's order |
| Feedback.FeedbackManager.GetErrorMessage | lux/app/core/feedback_manager.py:35-73 | every error type but `function_not_found` gives the same message whatever the registry suggests |
| Feedback.FeedbackManager.GetRelatedFunctions | lux/app/core/feedback_manager.py:93-131 | the loop over the registry in its order, the sort and the cut give the related list specified above |
| Feedback.FeedbackManager.FormatExecutionResult | lux/app/core/feedback_manager.py:133-165 | a success with a `str` value gives the value followed by the header and one line per related function, in the order `get_related_functions` returns them; a value that is not a `str` with related functions falls to the `TypeError` handler and gives the value's text alone; a failure gives the execution-error message and action |
| TestManager.ValidationOf | lux/app/core/test_manager.py:141-172 | valid exactly when the docstring is not empty, the code parses and some node of the tree is a `try`; an empty docstring is reported first |
| TestManager.ValidateFunction | lux/app/core/test_manager.py:141-172 | the docstring test, then the walk that stops at the first `try`, decide as specified |
| TestManager.FirstDefName | lux/app/core/test_manager.py:178-181 | "" when no node defines a function, otherwise the name of the first definition in walk order |
| TestManager.ExtractFunctionName | lux/app/core/test_manager.py:174-183 | the walk returns the first definition's name, and "" when there is none or the code does not parse |
| TestManager.RequestFor | lux/app/core/test_manager.py:88-107 | the prompt carries the error and the current code, and asks for a complete rewrite exactly at attempt 4, a minimal fix otherwise |
| TestManager.FirstRunPasses | lux/app/core/test_manager.py:21-67 | the first run needs no repair exactly when the module is built from a real location, the name is found, the function is valid, and calling it returns a string; as written the complaint is always the missing loader |
| TestManager.PassingCodeReturnedAsIs | lux/app/core/test_manager.py:43-55 | with the module built from a real location, code that passes its first run is returned unchanged with the string it returned |
| TestManager.FailureStartsRepair | lux/app/core/test_manager.py:23-67 | as written every test starts the repair chain at attempt 1 with the missing-loader complaint; with a real location, a call that returns something other than a string starts it with that complaint |
| TestManager.ExhaustedKeepsCode | lux/app/core/test_manager.py:80-85 | past attempt 4 the repair gives up at once with the code it was given |
| TestManager.EmptyRepairKeepsCode | lux/app/core/test_manager.py:109-115 | an empty reply from the generator ends the chain with the current code |
| TestManager.AsWrittenNeverRepairs | lux/app/core/test_manager.py:21-139 | the service the application passes has no `generate_content`, so code is never repaired: the result carries the code it was given, passes exactly when the first run does, and otherwise reports the missing attribute; with the loader as written too, it is that failure for every name and code |
| TestManager.NothingPassesAsWritten | lux/app/core/test_manager.py:23-24 | as written no code passes the test, whatever the repair service, since every version tried fails on the missing loader |
| TestManager.PassedCodeWasTested | lux/app/core/test_manager.py:15-67 | whatever code is reported as passing was itself loaded, validated and run, and returned the reported string |
| TestManager.RepairPassedWasTested | lux/app/core/test_manager.py:117-131 | the same for any repair chain: repaired code is returned only after a fresh `test_function` ran it |
| TestManager.RepairUnfold | lux/app/core/test_manager.py:117-131 | one repair round: the result of retesting the repaired code when it passed, else the next attempt on the repaired code with the new error |
| TestManager.ResultCodeProvenance | lux/app/core/test_manager.py:15-67 | the code in any result is the code first given or a reply of the generator |
| TestManager.RepairCodeProvenance | lux/app/core/test_manager.py:69-139 | the same for `_repair_code`, from the code it was given |
| TestManager.ValidationNeedsDocAndTry | lux/app/core/test_manager.py:145-166 | with a docstring, a `try` among the module's statements makes the code valid; without a docstring it is invalid at once |
| AiService.IsModelAvailable | lux/app/services/ai_service.py:99-103 | Gemini is available exactly when its model object was created; any other name exactly when it is a configured key |
| AiService.AvailableModels | lux/app/services/ai_service.py:13-28 | only the four configured names can be available, and the three OpenRouter models are available even when Gemini failed to load |
| AiService.CleanCode | lux/app/services/ai_service.py:365-370 | the cleaned code has no surrounding whitespace left |
| AiService.GenerateCode | lux/app/services/ai_service.py:291-375 | `None` for a failed call or an empty reply, otherwise the cleaned reply |
| AiService.CleanFenced | lux/app/services/ai_service.py:366-370 | a fenced block whose fence is followed by a line break comes back as exactly its body |
| AiService.CleanCodeOfFenced | lux/app/services/ai_service.py:366-370 | a stripped fenced reply gives what lies between the fences, stripped |
| AiService.FencedShape | lux/app/services/ai_service.py:366-369 | the cuts the cleaning makes in a fenced block fall on the fence, the line break and the closing fence |
| AiService.StripNewline | lux/app/services/ai_service.py:370 | a trailing line break is stripped away |
| AiService.FenceDropsNextCharacter | lux/app/services/ai_service.py:367 | ten characters are dropped after the nine-character fence, so without a line break after the fence the code's first character is lost |
| AiService.CleanUnfenced | lux/app/services/ai_service.py:365-370 | a reply without fences is only stripped |
| AiService.ValidateCode | lux/app/services/ai_service.py:377-402 | accepted exactly when the code compiles and no line is an `import` line mentioning a prohibited library |
| AiService.LineFlagged | lux/app/services/ai_service.py:392-396 | a line is flagged exactly when, stripped, it starts with `import ` and some prohibited name occurs in it |
| AiService.MentionsAny | lux/app/services/ai_service.py:393-396 | true exactly when one of the names occurs in the line |
| AiService.FromLinesPass | lux/app/services/ai_service.py:392 | a `from ... import` line is never flagged, whatever it imports |
| AiService.SingleLineVerdict | lux/app/services/ai_service.py:387-398 | code of one line is accepted exactly when it compiles and that line is not flagged |
| AiService.TorchImportRejected | lux/app/services/ai_service.py:390-396 | `import torch` followed by anything on the same line is rejected |
| AiService.TranslateResult | lux/app/services/ai_service.py:404-451 | building the prompt evaluates the undefined name `acción`, so the call raises and the input comes back whatever the model would say |
| AiService.TranslateResultIntended | lux/app/services/ai_service.py:444-451 | the stripped reply when the model answers with text, the input when the call fails or the reply is empty |
| AiService.TranslationIsLost | lux/app/services/ai_service.py:439 | a real translation that differs from the input is never passed on by the written version |
| AiService.Listing | lux/app/services/ai_service.py:253-256 | one `- name: description` line per registered function, in registry order, with the placeholder for a missing description |
| AiService.ListingLines | lux/app/services/ai_service.py:253-256 | the listing text splits back into one line per function when no line holds a line break |
| AiService.AnalyzeRequest | lux/app/services/ai_service.py:242-289 | the stripped reply, or `NO` when the call fails or the reply is empty |
| AiService.TaskHistory | lux/app/services/ai_service.py:206-209 | one `- title (category)` line for each of the last five tasks, oldest first |
| AiService.Kept | lux/app/services/ai_service.py:221 | the filter keeps at most one entry per line |
| AiService.SuggestionLines | lux/app/services/ai_service.py:221 | never more suggestions than lines |
| AiService.SuggestionLinesSnoc | lux/app/services/ai_service.py:221 | adding a line adds what the filter keeps of it, at the end |
| AiService.SuggestionLinesAppend | lux/app/services/ai_service.py:221 | the filter works line by line: two blocks give their suggestions in order |
| AiService.SuggestionOfOneLine | lux/app/services/ai_service.py:221 | a blank line is dropped, any other is kept with dashes and spaces trimmed |
| AiService.SuggestionTrimmed | lux/app/services/ai_service.py:221 | a kept suggestion has no dash or space at either end |
| AiService.GenerateTaskSuggestions | lux/app/services/ai_service.py:195-225 | a failed call gives no suggestions; otherwise the filtered lines of the stripped reply |
| AiService.BlankReplyNoSuggestions | lux/app/services/ai_service.py:220-221 | a blank reply gives no suggestion |
| AiManager.AnalyzeIntent | lux/app/core/ai_manager.py:68-104 | each intent is chosen exactly when its keywords occur in the lowercased message and no earlier group's do, with that intent's confidence and entities |
| AiManager.IntentIgnoresCase | lux/app/core/ai_manager.py:79 | the intent of a message and of its lowercased form agree |
| AiManager.GetTaskSuggestions | lux/app/core/ai_manager.py:106-124 | whatever the current tasks, the first three entries of the fixed list, in their order |
| AiManager.Parts | lux/app/core/ai_manager.py:267-275 | `split(" ", 1)` with an empty second part: a space-free head and, when there is a space, the rest after it |
| AiManager.VerifyFunctionRequest | lux/app/core/ai_manager.py:257-300 | no answer, an empty one or a raised call gives NO; otherwise the stripped answer is YES when it starts with `YES - ` and NEW when it starts only with `NEW - `, with the name and the rest split at the first space after the prefix |
| AiManager.ExistingRoundTrip | lux/app/core/ai_manager.py:266-273 | the answer `YES - name extra` is read back as that name and extra text |
| AiManager.RequestedRoundTrip | lux/app/core/ai_manager.py:274-281 | the answer `NEW - name description` is read back as that name and description |
| AiManager.PrefixedParts | lux/app/core/ai_manager.py:267 | the text after the six-character prefix splits back into the name and the rest |
| AiManager.DetermineFunctionType | lux/app/core/ai_manager.py:406-415 | each type exactly when one of its keywords occurs in the lowercased description and none of an earlier group's does, `default` otherwise |
| AiManager.DetermineFileExtension | lux/app/core/ai_manager.py:417-429 | each extension exactly when its marker occurs and no earlier marker does, `.py` otherwise |
| AiManager.JsonMeansJs | lux/app/core/ai_manager.py:420 | a lowercase description mentioning `json` gets a `.js` file, because `js` is matched as a bare substring |
| AiManager.SuffixedInjective | lux/app/core/ai_manager.py:320 | different counters give different suffixed names |
| AiManager.SuffixesUpToSpec | lux/app/core/ai_manager.py:319-321 | the names `base_1` .. `base_n` are n distinct names, and exactly those counters are among them |
| AiManager.EnsureUniqueFunctionName | lux/app/core/ai_manager.py:302-329 | the base name when it is free or the names cannot be read, otherwise `base_k` for the smallest free counter k from 1, which is never taken |
| AiManager.FreeExists | lux/app/core/ai_manager.py:319-321 | the counting loop always stops: a smallest free counter exists |
| AiManager.SmallestFree | lux/app/core/ai_manager.py:319-321 | the counter the loop stops at is free and every smaller one from 1 is taken |
| AiManager.SuffixesWithin | lux/app/core/ai_manager.py:320 | names holding each of `base_1` .. `base_n` hold the whole set of them |
| AiManager.LeastFree | lux/app/core/ai_manager.py:319-321 | below a free counter there is a least free one |
| AiManager.UniqueNameSpec | lux/app/core/ai_manager.py:302-325 | the loop's answer is the specified unique name and is not taken |
| AiManager.FilePath | lux/app/core/ai_manager.py:350-354 | games go to the desktop and everything else to the functions directory, always as `name` plus the extension |
| AiManager.AIManager.constructor | lux/app/core/ai_manager.py:25-29 | the manager works with the function manager it is given |
| AiManager.AIManager.CreateNewFunction | lux/app/core/ai_manager.py:331-395 | the unique name is new; without generated code the file is truncated and the call fails with the write error; otherwise the cleaned code is written, the function registered, and Python code that is no game is imported, failing with the import error or the missing attribute, or added to the loaded functions |
| AiManager.AIManager.WriteAndLoad | lux/app/core/ai_manager.py:359-391 | the file is written and registered; only Python code that is no game is imported, and only a module defining the name adds a function |
| AiManager.AIManager.Import | lux/app/core/ai_manager.py:373-391 | importing fails with the module's error or the missing attribute and changes nothing, or adds the defined function under its name |
| AiManager.WriteAndRegister | lux/app/core/ai_manager.py:359-371 | the file holds the code and the registry a fresh entry with the description, path and type; the loaded functions are unchanged |
| Security.PatternStep | lux/app/core/security_analyzer.py:220-228 | scanning one more category appends that category's matches, in order |
| Security.FlatMapStep | lux/app/core/security_analyzer.py:102 | visiting one more node of the walk appends that node's violations |
| Security.CountInStep | lux/app/core/security_analyzer.py:184-196 | counting over one more node adds that node's count |
| Security.NestingStep | lux/app/core/security_analyzer.py:184-194 | the nesting report over one more node appends that node's report |
| Security.OnePerNode | lux/app/core/security_analyzer.py:160-169 | a check that reports each offending node once reports as many violations as there are offending nodes |
| Security.Segments | lux/app/core/security_analyzer.py:148-149 | the parts of a path are its non-empty segments other than `.`, and every such segment is a part |
| Security.MatchViolations | lux/app/core/security_analyzer.py:221-228 | one violation per regex match |
| Security.SecurityAnalyzer.constructor | lux/app/core/security_analyzer.py:16-17 | a new analyzer holds no violations |
| Security.SecurityAnalyzer.AnalyzeCode | lux/app/core/security_analyzer.py:69-98 | the violations are reset; a syntax error gives the one error violation; parsed code gets the eight checks' reports in call order and then the error raised by the call to the missing `_check_error_handling` |
| Security.SecurityAnalyzer.AnalyzeCodeFixed | lux/app/core/security_analyzer.py:69-91 | the same analysis with the missing call removed: the eight checks and then `_check_input_sanitization` |
| Security.SecurityAnalyzer.RunChecksBefore | lux/app/core/security_analyzer.py:78-87 | the eight checks that run before the missing call append their reports in call order |
| Security.SecurityAnalyzer.RunTreeChecks | lux/app/core/security_analyzer.py:78-82 | the five tree checks append their reports in call order |
| Security.SecurityAnalyzer.RunLaterChecks | lux/app/core/security_analyzer.py:85-87 | the text scan, the sensitive calls and the validation check append their reports in order |
| Security.SecurityAnalyzer.CheckImports | lux/app/core/security_analyzer.py:100-120 | one report per import node of the walk, judged by the first alias only |
| Security.SecurityAnalyzer.ImportNode | lux/app/core/security_analyzer.py:103-120 | a prohibited first name is reported as prohibited; otherwise a name that starts with no allowed prefix is reported as not allowed |
| Security.SecurityAnalyzer.CheckDangerousCalls | lux/app/core/security_analyzer.py:122-135 | one violation per call, by plain name, of `eval`, `exec` or `compile`, in walk order |
| Security.SecurityAnalyzer.DangerousNode | lux/app/core/security_analyzer.py:125-135 | a node is reported exactly when it calls one of the three names directly |
| Security.SecurityAnalyzer.CheckFileOperations | lux/app/core/security_analyzer.py:137-156 | one violation per `open` call whose first argument is a literal path through none of the allowed directories |
| Security.SecurityAnalyzer.FileNode | lux/app/core/security_analyzer.py:142-156 | the report of one node, with the path as `Path` prints it (empty and `.` segments dropped, exactly two leading slashes kept, any other number of them printed as one) |
| Security.SecurityAnalyzer.CheckInfiniteLoops | lux/app/core/security_analyzer.py:158-169 | one violation per loop with no `break` or `return` anywhere below it |
| Security.SecurityAnalyzer.LoopNode | lux/app/core/security_analyzer.py:161-169 | a loop is reported exactly when its walk finds no exit |
| Security.SecurityAnalyzer.CheckResourceUsage | lux/app/core/security_analyzer.py:178-204 | every loop after the second in walk order is reported, and more than 50 names add one report with the count |
| Security.SecurityAnalyzer.CheckPatterns | lux/app/core/security_analyzer.py:206-216 | one violation per match of each dangerous pattern, named after its category |
| Security.SecurityAnalyzer.CheckMaliciousPatterns | lux/app/core/security_analyzer.py:218-228 | one `malicious_code` violation per match, category by category in declaration order |
| Security.SecurityAnalyzer.ScanPatterns | lux/app/core/security_analyzer.py:208-228 | the loop shared by both scans appends one violation per match, categories in order |
| Security.SecurityAnalyzer.AppendMatches | lux/app/core/security_analyzer.py:221-228 | one violation per match of one category, in match order |
| Security.SecurityAnalyzer.CheckSensitiveOperations | lux/app/core/security_analyzer.py:230-244 | for each call in walk order, one violation per operation and pattern found in the unparsed call |
| Security.SecurityAnalyzer.SensitiveNode | lux/app/core/security_analyzer.py:233-244 | only calls are looked at |
| Security.SecurityAnalyzer.SensitiveForCall | lux/app/core/security_analyzer.py:235-244 | operations in order, each pattern that matches adding a violation naming the operation and its permissions |
| Security.SecurityAnalyzer.SensitivePatternsFor | lux/app/core/security_analyzer.py:236-244 | one violation per pattern of the operation found in the call |
| Security.SecurityAnalyzer.CheckDataValidation | lux/app/core/security_analyzer.py:246-264 | one violation exactly when no `if` holds a comparison or a call |
| Security.SecurityAnalyzer.CheckInputSanitization | lux/app/core/security_analyzer.py:266-279 | one violation per direct call of `input` or `raw_input` |
| Security.SecurityAnalyzer.InputNode | lux/app/core/security_analyzer.py:269-279 | a node is reported exactly when it calls one of the two names directly |
| Security.StartsWithAny | lux/app/core/security_analyzer.py:113 | true exactly when the module name starts with one of the allowed names |
| Security.InAllowedDir | lux/app/core/security_analyzer.py:149 | true exactly when some part of the path is an allowed directory |
| Security.FindBreakOrReturn | lux/app/core/security_analyzer.py:171-176 | true exactly when the walk below the node holds a `break` or `return` |
| Security.FindCompareOrCall | lux/app/core/security_analyzer.py:253-256 | true exactly when the walk below the node holds a comparison or a call |
| Security.AnalysisNeverEmpty | lux/app/core/security_analyzer.py:88-98 | as written every input yields at least one violation and the last is an `error`; a syntax error yields only that one |
| Security.InputSanitizationNeverRuns | lux/app/core/security_analyzer.py:88-89 | as written the input check never contributes; without the missing call it does |
| Security.CleanTreeWalk | lux/app/core/security_analyzer.py:250 | the walk of the clean tree visits its three nodes in order |
| Security.FlatMapThree | lux/app/core/security_analyzer.py:102 | a three-node walk reports its nodes' violations in order |
| Security.CountInThree | lux/app/core/security_analyzer.py:184-196 | counting over three nodes adds their counts |
| Security.CleanFlatMap | lux/app/core/security_analyzer.py:102 | a check that reports none of the clean tree's nodes reports nothing |
| Security.CleanCounts | lux/app/core/security_analyzer.py:184-196 | the clean tree has no loop and no name to count |
| Security.NoLoopsNoNesting | lux/app/core/security_analyzer.py:185-194 | without loops there is no nesting violation |
| Security.CleanTreeChecks | lux/app/core/security_analyzer.py:78-82 | the five tree checks report nothing on the clean tree |
| Security.CleanLaterChecks | lux/app/core/security_analyzer.py:85-87 | when no pattern matches, the text scan, the sensitive calls and the validation check report nothing on the clean tree |
| Security.CleanChecksBefore | lux/app/core/security_analyzer.py:78-87 | everything before the missing call is silent on the clean tree |
| Security.FixedAnalysisCanPass | lux/app/core/security_analyzer.py:69-91 | without the missing call, code parsing to a single validated `if` passes when no pattern matches |
| Security.CleanCodeRejected | lux/app/core/security_analyzer.py:88-98 | as written the same code is rejected with exactly the missing-method error |
| Security.ParsedAnalyses | lux/app/core/security_analyzer.py:73-98 | both analyses of parsed code, from the checks' reports on its tree |
| Security.EmptyScans | lux/app/core/security_analyzer.py:220-228 | when no pattern matches, the scan reports nothing |
| Security.ImportCheckFirstNameOnly | lux/app/core/security_analyzer.py:104-120 | only the first alias is judged: `import math, socket` passes, `import socket, math` is prohibited, `from os import path` is judged by `path` |
| Security.OneViolationPerOffence | lux/app/core/security_analyzer.py:122-279 | one violation per dangerous call, per loop without an exit and per input call |
| Security.ExitBelowLoopIsEnough | lux/app/core/security_analyzer.py:171-176 | an exit anywhere below a loop, however deep, keeps the loop from being reported |
| Security.NestingCountsLoops | lux/app/core/security_analyzer.py:181-194 | the depth counter is never decremented, so every loop after the second in walk order is reported, nested or not |
| Security.OnePerMatch | lux/app/core/security_analyzer.py:218-228 | the malicious scan reports exactly as many violations as there are matches |
| Security.FileCheckScope | lux/app/core/security_analyzer.py:139-156 | a literal path through an allowed directory is never reported, and an argument that is not a string literal is not looked at |
| Router.AnalyzeRequest | lux/app/core/function_manager.py:452-501 | YES exactly when the answer starts with `YES - `, with the stripped name and its registered description; NEW exactly when it starts only with `NEW - ` and a space follows, with the stripped name and description; NO otherwise, with empty fields |
| Router.YesNamesFunction | lux/app/core/function_manager.py:473-479 | `YES - name` names that function and brings its registered description, or "" for an unknown name |
| Router.NewSplitsAtFirstSpace | lux/app/core/function_manager.py:480-487 | `NEW - name rest` gives the name up to the first space and the stripped rest as description |
| Router.NewAnswer | lux/app/core/function_manager.py:480-487 | a NEW answer whose text splits in two gives those two parts, stripped |
| Router.NotYesAnswer | lux/app/core/function_manager.py:473-480 | an answer starting with `NEW - ` is never read as YES |
| Router.NewWithoutSpaceIsNo | lux/app/core/function_manager.py:481-493 | a NEW answer with no space after the prefix falls through to NO |
| Router.SilentClassifierMeansNo | lux/app/core/function_manager.py:469-493 | a failed or empty classifier reply makes the request no function request |
| Router.SplitOnceAt | lux/app/core/function_manager.py:481 | `split(c, 1)` of `a + c + b`, with no `c` in `a`, gives `a` and `b` |
| Router.ParseCreationRequest | lux/app/core/function_manager.py:187-192 | rejected exactly when the first line lacks the prefix; a missing second line exactly when there is one line; otherwise a stripped name and description |
| Router.NewPrefixOneLine | lux/app/core/function_manager.py:188 | the prefix holds no line break |
| Router.CreationRequestRoundTrip | lux/app/core/function_manager.py:75-192 | the text `execute_function` builds from a NEW analysis reads back as the same name and description |
| Router.CreationMessage | lux/app/core/function_manager.py:183-301 | the message of each gate's return; none exactly when the module has no function of the requested name and the method falls off its end |
| Router.HighRiskOf | lux/app/core/function_manager.py:241-246 | the stopping permissions are exactly those of high or critical risk |
| Router.HighRiskDetected | lux/app/core/function_manager.py:239-255 | code is refused at the permission gate exactly when it is detected as writing files, using the network or running commands |
| Router.PermissionNames | lux/app/core/function_manager.py:250 | one name per permission, in order |
| Router.GrantedNames | lux/app/core/function_manager.py:250 | the grant is exactly the detected capabilities, all known to the catalogue |
| Router.NamesOfGranted | lux/app/core/function_manager.py:250 | the names of the catalogue entries a set of names selects are that set |
| Router.CheckRefusalRank | lux/app/core/function_manager.py:205-220 | the refusals of the security, validation and test gates come before the dependency gate |
| Router.HighRiskRank | lux/app/core/function_manager.py:239-255 | the permission refusal comes after the dependency gates |
| Router.RequestsCoverAllowed | lux/app/core/function_manager.py:229-231 | every allowed dependency is requested at its pinned version |
| Router.InstallsEach | lux/app/core/function_manager.py:229-236 | the install succeeds exactly when pip succeeds for each pinned request |
| Router.CheckOutcome | lux/app/core/function_manager.py:205-220 | the security analysis refuses exactly when it reports something; then `validate_code`; then the test, with its error; no refusal exactly when all three pass |
| Router.AsWrittenChecksRefuse | lux/app/core/function_manager.py:214-220 | with the test as written the checks refuse every code |
| Router.AsWrittenGateRefusesAll | lux/app/core/function_manager.py:205-212 | as written the analyzer always reports the missing method, so the security gate refuses all generated code |
| Router.RepairedGateAdmitsCleanCode | lux/app/core/function_manager.py:205-212 | with the analyzer repaired, clean code passes the security gate that refuses it as written |
| Router.FunctionManager.constructor | lux/app/core/function_manager.py:20-40 | the loaded functions, an empty registry and permissions, the installed packages and the log directories as found, and an executor with no result and no error |
| Router.FunctionManager.GetAvailableFunctions | lux/app/core/function_manager.py:360-370 | every loaded function with its docstring, or the placeholder when it has none; never an empty description |
| Router.FunctionManager.CheckCode | lux/app/core/function_manager.py:205-220 | the gates' outcome as specified, and the code the test settled on when all pass |
| Router.FunctionManager.ResolveDependencies | lux/app/core/function_manager.py:223-236 | forbidden imports are refused with exactly the forbidden names, no repeats; with allowed imports it fails exactly when some needed package fails to install; a refusal installs nothing; on success the function's recorded versions are the pins of the needed packages, and with none needed nothing changes; other functions' dependencies are untouched |
| Router.FunctionManager.InstallRequired | lux/app/core/function_manager.py:228-236 | the install succeeds exactly when pip succeeds for every pinned requirement; a failure installs and records nothing; a success records the pins for the function alone; with no requirement nothing changes |
| Router.NeededPinsAreRequired | lux/app/core/function_manager.py:223-236 | the pins recorded for the packages `analyze_dependencies` requires are the pins of the imported allowed packages that are missing or older, and it requires some exactly when such a package exists |
| Router.FunctionManager.RegisterLoaded | lux/app/core/function_manager.py:278 | the registry gains a fresh entry for the function, with its path in the functions directory |
| Router.FunctionManager.Install | lux/app/core/function_manager.py:239-297 | high-risk code is refused and nothing changes; otherwise the needed permissions are granted, the file written, and the import decides: registered and kept, or nothing registered |
| Router.FunctionManager.Grant | lux/app/core/function_manager.py:250 | the function is granted exactly the permissions its code needs |
| Router.FunctionManager.LoadWritten | lux/app/core/function_manager.py:268-297 | an import error or a missing function changes nothing; a defined function is registered, kept and tried, its trial deciding between created and failed |
| Router.FunctionManager.Deploy | lux/app/core/function_manager.py:223-297 | conflicts exactly when an import is forbidden, an install failure exactly when a package fails, the permission gate next; no refusal writes, grants or registers anything; past the gates the file, the grant and the import as in `Install` |
| Router.FunctionManager.Gates | lux/app/core/function_manager.py:205-297 | a check refusal changes nothing; code that passes is deployed as the test left it |
| Router.FunctionManager.CreateNewFunction | lux/app/core/function_manager.py:183-301 | the gates in order, each stage exactly when its condition holds; every refusal returns before anything is granted, written or registered; the answer is the stage's message |
| Router.FunctionManager.AsWrittenCreatesNothing | lux/app/core/function_manager.py:205-220 | with the test as written every creation stops at one of the three checks, and nothing is installed, granted, written or registered |
| Router.FunctionManager.RunFunction | lux/app/core/function_manager.py:103-161 | the executor's fields take the run and the loaded functions and files do not change; when `execute` raises (the removed directory) or the execution log cannot be opened, the error goes to the function's error log and the answer is the untranslated execution-error feedback, logs, metrics and registry unchanged; otherwise the run is logged and measured, a failure counts an error and is logged with its kind and answered with the translated feedback, a success updates the usage and is translated with its context |
| Router.FunctionManager.ReportException | lux/app/core/function_manager.py:152-181 | the function's error log gains one entry with the time, the request and the error, the answer is the untranslated execution-error feedback, and the loaded functions and files do not change |
| Router.FunctionManager.Answer | lux/app/core/function_manager.py:120-161 | a failure counts an error, is logged and answered with the translated feedback; a success updates the usage and answers the translated result |
| Router.FunctionManager.CreateRequested | lux/app/core/function_manager.py:87-91 | a NEW analysis goes to creation with everything `create_new_function` promises (each stage exactly when its gate decides, no refusal installs, grants, writes or registers, a defined function is registered and kept) and its message, if any, is translated for the request; a code that defines no function gives None, which is what the as-written `translate_result` returns for `None` (it hands back its input) |
| Router.FunctionManager.CallKnown | lux/app/core/function_manager.py:94-161 | an unknown name is no function request and changes nothing; a disabled one is answered with the disabled message and changes nothing; an enabled one runs as `RunFunction` promises |
| Router.FunctionManager.ExecuteFunction | lux/app/core/function_manager.py:66-165 | NO changes nothing; NEW changes neither the logs nor the executor and creates as `CreateRequested` promises; YES with an unknown or disabled function changes nothing; an enabled function runs as `RunFunction` promises and leaves the analyzer, the packages and the grants alone |
| Router.FunctionManager.ExecuteKnown | lux/app/core/function_manager.py:84-161 | NO is no function request and changes nothing; YES goes by its name as `CallKnown` promises |

## Left out

- `str.format` format specifications, conversions (`!r`), attribute and index lookups in fields: the templates use only plain `{name}` fields.
- `difflib.get_close_matches`: its ranking is the environment's `closeMatches`; the model proves what the callers do with its answer.
- File and JSON input/output: files are values (the registry projection, metrics, execution logs, error logs, dependency records, written sources); JSON encoding, encodings and partial writes are not modelled, and opening a file for writing never fails here. In particular `AIManager.create_new_function` (ai_manager.py:359) and the creation write of the function manager (function_manager.py:264) succeed even where `~/Desktop` or `resources/functions` is missing, while Python raises and returns `{"success": False}` (ai_manager.py:393-395) before anything is registered. The log manager's own missing `executions` and `metrics` directories are modelled.
- Floats: `average_execution_time`, `success_rate` and the metrics averages are exact reals; floating-point rounding is not modelled, so Registry.UsageUpdated, Registry.UsagesKeepTotal, Registry.AverageIsMean and Logs.MetricsAfterMean state identities that Python's floats meet only approximately.
- Executor.SafeExecutor.Execute: the thread, the signal alarm, the `resource` limits set on the whole process and the temporary directory are not modelled; how the function's thread ended is a `RunEvent` parameter, `self.result` is kept as the text `str` gives for it, and a timed-out thread that writes the fields after `execute` has returned is not modelled. After the `FileNotFoundError` of the `finally` block the process stays in the removed directory; what that does to later relative paths is not modelled. On systems where a directory in use cannot be removed the cleanup of the temporary directory fails instead, which is not modelled either.
- TestManager.TestFunction: Python's recursion limit between `test_function` and `_repair_code` is a `fuel` bound; at fuel 0 the test fails with "maximum recursion depth exceeded", and the exact depth at which Python stops is not modelled.
- Regular expressions, `ast.parse`, `ast.unparse`, `compile`, importing a module and every language-model reply: their answers are parameters (`Oracles`, `compiles`, `ModuleLoad`, `Reply`), so the model relates their answers to the engine's decisions but not their own behaviour.
- The first `log_execution` (log_manager.py:20-44), which Python replaces with the second definition, and `log_function_creation` (log_manager.py:89), which only writes to the logger.
- The `logging` messages written alongside every operation: they have no effect on state or results.
- `None.__doc__` and other docstrings of objects that are not functions: a loaded function's docstring is an `Option<string>`.
- `_load_functions` of the function manager: the already-loaded functions are a constructor parameter.
- The escaping `repr` applies to quotes and backslashes inside the strings of `str(context)`: `ContextText` puts each string between single quotes unchanged.
- The outer `except` of `execute_function` (function_manager.py:163-165) for exceptions raised by the feedback manager or the translator themselves: both are total here.
- Feedback.FeedbackManager.FormatExecutionResult: the function's value is its text, and `valueIsText` says whether Python holds it as a `str`. With no related function Python returns a non-`str` value as the object itself, and the model gives its text. A list value does not raise on `+=` with a string but is extended by the string's characters; the model treats every non-`str` value as raising.
- Router.FunctionManager.CreateRequested: a code that defines no function answers None without calling `translate`. Python calls `translate_result(None, request)`, and as written that returns None too. Only the intended translator would differ: it would put the text "None" into its prompt.
- The notification service's Qt timers, tray icon, sounds and signals: the displayed messages are a sequence and the end of a display is a call of `ResetShowing`.
- `str.lower` on characters outside Latin-1: `Lower` maps `A`-`Z` and the Latin-1 capitals only.
- `str.strip()` on white space outside Latin-1: `Whitespace` holds the white-space characters of the first 256 code points only, so the model does not strip the other Unicode spaces (such as U+2003).
- Path handling: paths are strings joined with "/"; `os.path` normalisation is not modelled.
- Permission order: detected capabilities are listed in the catalogue's order, where Python's order is a set's iteration order; only the set of names matters to the callers.
- The constructors of `Registry.FunctionRegistry` and `Permissions.PermissionManager` start from no file on disk; an unreadable or malformed legacy registry file counts as a missing one.
- `_analyze_system_requirements`, `_generate_usage_examples`, `_ensure_base_functions` and `_get_obtener_hora_code`: they produce fixed texts or seed files and take no part in the lifecycle's decisions.
- `list_functions` of the registry is read as the registry's map itself.
- `AIManager.chat`, `AIManager.analyze_task`, `AIManager.cleanup` and `AIService.chat`, `AIService.code_assistance`, `AIService.analyze_task`: each only forwards a prompt to the language model or the network and returns its reply.
- Concurrency: every operation is modelled as running to completion on its own.

## Findings

| source | as written | input that shows it | evidently intended | confidence | as-written member | corrected member |
|---|---|---|---|---|---|---|
| security_analyzer.py:88 | `analyze_code` calls `self._check_error_handling`, which the class does not define, so every parsed input ends in the handler's single "error" violation | any code that parses, such as `def f():\n    return 1` | the analysis collects the violations of the checks that exist, and clean code passes | not executed | Security.AnalysisNeverEmpty | Security.FixedAnalysisCanPass |
| lux/app/core/function_registry.py:48 | `register_function` uses `datetime.now()` without importing `datetime`, raises `NameError`, stores nothing and returns `False` | `register_function("f", "p", "d", "utility", ".py")` on an empty registry | the record is stored and found afterwards | not executed | LegacyRegistry.RegisterThenLookup | LegacyRegistry.RegisterFixedThenLookup |
| test_manager.py:109 | `_repair_code` calls `generate_content` on the AI service, which has no such method, so a failing function is never repaired | any code whose first run raises | the service's code generator is asked for a repaired version, up to `max_repair_attempts` times | not executed | TestManager.AsWrittenNeverRepairs | TestManager.RepairUnfold |
| lux/app/services/ai_service.py:439 | the prompt of `translate_result` is an f-string with the field `{acción}`, a name that is not defined, so the call raises before the model is asked and the input comes back untranslated | any result, such as `"42"`, with a reply `"cuarenta y dos"` | the stripped reply of the model is returned | not executed | AiService.TranslationIsLost | AiService.TranslateResultIntended |
| feedback_manager.py:19 | the `execution_error` template needs `reason` and `suggestion`, but `execute_function` (function_manager.py:112-116) passes only `name` and `error`, so formatting raises and the answer is the generic fallback | `get_error_message("execution_error", name="f", error="boom")` | the template's message and action filled in | not executed | Feedback.CallersGetFallback | Feedback.ExecutionErrorFilled |
| lux/app/core/test_manager.py:23-24 | `spec_from_file_location(function_name, "")` finds no loader for the empty location and returns `None`, so `module_from_spec(None)` raises `AttributeError` before the code is executed and every test fails | any function name and code, such as `f` with a body that returns `"x"` inside `try`/`except` | the code is loaded as a module and a function that runs passes its test | not executed | TestManager.NothingPassesAsWritten | TestManager.PassingCodeReturnedAsIs |
| lux/app/core/safe_executor.py:112 | the `finally` block asks for the current directory after the `with` block has removed it; on POSIX systems `Path.cwd()` raises `FileNotFoundError`, which replaces the dictionary `execute` was returning | any function on Linux, such as one that returns `"ok"` | the caller's directory is restored and the dictionary is returned | not executed | Executor.AsWrittenAlwaysRaises | Executor.FirstRunReportsItself |

The function manager takes the choice of analyzer (`fixedAnalyzer` of `Router.CreationEnv`), the repair service (in `TestManager.Env`) and the translator as parameters, so its lifecycle theorems hold for the written and the corrected collaborators alike; the calls it makes to the feedback manager are the source's own.
