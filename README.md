# monocf core in Dafny

monocf is a command-line tool for monorepos of Cloudflare Workers. Each
worker lives in its own directory under a workers directory and has its own
`wrangler.jsonc`. The `worker` command runs `wrangler dev` or
`wrangler deploy` for one named worker or, with `--all`, for every worker in
the directory. Before a worker runs, its temporary config is composed. The
composition starts from a verbatim copy of the worker's config. A shared base
config, when there is one, is merged in. Then the `{key}` placeholders are
substituted and the sanitised worker name is patched in. In dev mode, every
service binding is resolved recursively to the temp config of the dependency.
The worker's `.dev.vars` file is overlaid with the root's variables. It
stays overlaid after the run: the environment service can roll the file back,
but no command calls that rollback, so the restore is a property of the
service (`EnvironmentFacts.PatchThenRollback`), not a step of a run. With `deploySecrets` and an environment, deploy also
uploads the worker's environment file as secrets. Commands are looked up by
name in a registry that fills a command factory once. Every command runs
inside an error handler that reports the failure and cleans up its temp
files.

The model is split into one module per source file:

- `Files`: `FileService`, a class that owns the temp-file list.
- `Environment`: `EnvironmentService`, a class that owns the backup list and
  the temp env path.
- `Configuration`: `ConfigurationService`, a class that owns the loaded
  configuration.
- `Bindings`: `ServiceBindingService`.
- `WranglerService`.
- `Errors`: `ErrorService` and the error classes.
- `WorkerCommands`: the dev and deploy executors.
- `Commands`: the abstract command and the `worker` and `whoami` commands.
- `Factory`: the command factory.
- `Registry`: the registry.
- Smaller modules for the utilities: `Names`, `FsUtil`, `Strings`, `EnvVars`.

The disk, the output and the foreign code live in the `World` class of
`Host`. The disk is a `FileSystem` value. The output is a list of `Event`s:
warnings, started `wrangler` processes, and the stage each worker run reaches.
Each stateful service method is proved equal to a pure function of the old
state. The properties the code promises are proved about those functions.
Those properties are:

- the round trip of a patch and its rollback;
- the precedence of configuration sources;
- the order in which workers run and stages happen;
- the arguments given to `wrangler`;
- the cleanup of temp files;
- which command a name dispatches to.

The model follows the code as written, except where "## Left out" says
otherwise: the wiring mismatches between the commands and the factory, the
unreachable early return of `patchEnvironmentFile`, and the point at which
`runWorkers` constructs its executor. One consequence concerns exit codes.
`handleError` tests for `WranglerError` inside the `WorkerManagerError`
branch, which a `WranglerError` never enters. So a failing `wrangler` run
exits with code 1 and its bare message. The exit code that `WranglerError`
carries is never passed on.

## Model

| member | source | states |
|---|---|---|
| Names.AllAllowedIff | src/utils/string.ts:7 | the recursive test of the class `[a-z0-9-]` holds exactly when every character is in the class |
| Names.ReplaceDisallowed | src/utils/string.ts:8 | the result is as long as the input's UTF-16 code units, holds only allowed characters, and is the input itself when that is all allowed |
| Names.ReplaceDisallowedUnits | src/utils/string.ts:8 | read as UTF-16 code units, as the regular expression without the `u` flag reads it, each allowed unit stays and every other unit becomes `-`, so a character outside the Basic Multilingual Plane becomes `--` |
| Names.MatchesNamePatternUnits | src/utils/string.ts:7 | the test `^[a-z0-9-]+$` holds exactly when there is at least one code unit and every code unit is in the class |
| Names.SanitizeWorkerName | src/utils/string.ts:6-12 | the result has as many characters as the input has code units, only allowed characters, matches the pattern for any non-empty input, and equals an input that already matches |
| Names.SanitizeOptionalName | src/services/file-service.ts:98-100 | a missing name stays missing and a present one is sanitised |
| Names.SanitizeUnits | src/utils/string.ts:6-12 | whether or not the name matched, the result's code units are the input's, each kept if allowed and turned into `-` otherwise |
| Names.SanitizeIdempotent | src/utils/string.ts:6-12 | sanitising twice is the same as sanitising once |
| Names.SanitizedMatchesPattern | src/utils/string.ts:6-12 | the sanitised name passes the pattern test exactly when the input is non-empty |
| Strings.ExpandLiteral | src/services/file-service.ts:85 | a replacement text without `$` is inserted as written; with `$`, `Expand` follows `GetSubstitution` of ECMA-262 section 22.1.3.19.1 (`$$`, `$&`, `` $` ``, `$'`) |
| Strings.IndexOf | src/services/file-service.ts:85 | the search returns the first occurrence at or after the start, or -1 when there is none |
| Strings.MatchPositions | src/services/file-service.ts:85 | the positions `replaceAll` collects are occurrences in increasing order, each at least the pattern's length after the previous one |
| Strings.ReplaceAllIsStandard | src/services/file-service.ts:85 | the left-to-right scan equals `replaceAll` as ECMA-262 section 22.1.3.20 defines it: text between the collected positions, each match's expansion, then the tail |
| Strings.SubstitutionConstant | src/services/file-service.ts:85 | with a replacement free of `$`, every match is replaced by exactly that text |
| Strings.ReplaceAllSplit | src/services/file-service.ts:85 | the first occurrence of a pattern whose first character does not recur in it is replaced, the text before it kept, and the search goes on after it |
| Strings.ReplaceAllTemplate | src/services/file-service.ts:85 | pieces free of such a pattern, joined by it, become the same pieces joined by a replacement free of `$` |
| Strings.ReplaceAllCanFormPattern | src/services/file-service.ts:135 | replacing `{workerName}` in `{worker{workerName}}` by `Name` leaves `{workerName}`: one pass can form the pattern anew |
| Strings.ReplaceAllAbsent | src/services/file-service.ts:83-87 | `replaceAll` leaves a text without the pattern unchanged |
| Strings.ReplaceAllSelf | src/services/file-service.ts:83-87 | replacing a pattern free of `$` by itself changes nothing |
| Strings.ContainsSuffix | src/utils/fs.ts:20 | a text includes whatever was appended to it |
| Strings.ContainsExtend | src/utils/fs.ts:17-20 | a text that includes a line still includes it after more is appended |
| Errors.HandleError | src/services/error-service.ts:30-58 | an exiting report exactly when `exit` is set, always with code 1; each subclass gets its prefix, and a plain error or a `WranglerError` keeps its bare message |
| Errors.Raised | src/services/error-service.ts:53-54 | the error the framework throws on exit is a plain exit error with code 1 that carries the handled message |
| Errors.WrapThrown | src/core/commands/abstract-command.ts:47 | a thrown non-`Error` is wrapped as a plain error with its text, and it is reported with exactly that text and code 1 |
| Errors.WranglerCodeIsNotPropagated | src/services/error-service.ts:34-48 | a `WranglerError` is reported with its bare message and code 1, whatever its own code |
| CommandTypes.IsDevCommandParams | src/types/command-types.ts:63-65 | the guard holds exactly for the dev variant |
| CommandTypes.IsDeployCommandParams | src/types/command-types.ts:72-74 | the guard holds exactly for the deploy variant |
| CommandTypes.ExactlyOneGuard | src/types/command-types.ts:56-74 | exactly one of the two guards holds for any parameters |
| Host.Join | src/services/file-service.ts:56-57 | joining onto a non-empty segment gives a non-empty path |
| Host.World.WriteFile | src/services/file-service.ts:89-92 | the model's write creates or overwrites the file and fails only when the path is a directory, leaving the disk as it was |
| Host.World.Unlink | src/services/file-service.ts:59-61 | the model's unlink removes an existing file and fails without a change only on a directory or a missing path |
| Host.World.Emit | src/services/error-service.ts:53-57 | an output event is appended and the disk is untouched |
| FsUtil.AppendLine | src/utils/fs.ts:9-23 | the disk after `appendLine` is the one its specification function gives, and a failure leaves the disk unchanged |
| FsUtil.AppendLineContains | src/utils/fs.ts:9-23 | after a successful append the file exists and includes the line, and every other path is unchanged |
| FsUtil.AppendLineCreates | src/utils/fs.ts:10-13 | a missing file is created holding exactly the line |
| FsUtil.AppendLineCheckedIdempotent | src/utils/fs.ts:15-18 | with the check, appending the same line a second time changes nothing |
| FsUtil.AppendLineUnchecked | src/utils/fs.ts:15-22 | without the check an existing file always grows by a newline and the line; with the check, a substring match is enough to skip it |
| EnvVars.Put | src/services/environment-service.ts:64 | an object assignment sets the key, keeps every other key's value, keeps key order with new keys last, and keeps keys distinct |
| EnvVars.Assign | src/services/environment-service.ts:64 | folding assignments keeps keys distinct |
| EnvVars.Lines | src/services/environment-service.ts:175 | one `key=value` line per entry, in entry order |
| EnvVars.AssignLookup | src/services/environment-service.ts:64 | after the fold a key holds its last assigned value, or its old value when it was not assigned |
| EnvVars.AssignKeysPrefix | src/services/environment-service.ts:64 | the keys already present keep their order at the front |
| EnvVars.ParseEnvLookup | src/services/environment-service.ts:150-161 | a parsed file has distinct keys, and each key holds its last assignment in the file |
| EnvVars.LastValueOfDistinct | src/services/environment-service.ts:154 | with distinct keys, the last assignment of a key is its only one |
| EnvVars.LookupInKeys | src/services/environment-service.ts:64 | a lookup succeeds exactly for the listed keys |
| EnvVars.SpreadWorkerWins | src/services/environment-service.ts:64 | in `{...root, ...worker}` a worker key overrides the root key of the same name, other root keys keep their values and order, and no key repeats |
| EnvVars.SerializeShape | src/services/environment-service.ts:175 | serialising gives `key=value` lines joined by newlines, with no trailing newline |
| Environment.ParseEnvFile | src/services/environment-service.ts:150-161 | a missing file parses as `{}` and an existing file as its dotenv parse; only a directory at the path fails, with a `FileOperationError` |
| Environment.WriteEnvFile | src/services/environment-service.ts:169-179 | only an existing file is overwritten with the serialisation, no path is ever created, and an empty or missing path is a no-op |
| Environment.EnvironmentService.constructor | src/services/environment-service.ts:17-35 | a new service has no backups, no root and no temp env file |
| Environment.EnvironmentService.SetRootDir | src/services/environment-service.ts:37-39 | only the root changes |
| Environment.EnvironmentService.WriteEnvironmentVariables | src/services/environment-service.ts:169-179 | the disk and outcome are those of the write function |
| Environment.EnvironmentService.PatchEnvironmentFile | src/services/environment-service.ts:47-66 | the backup list, disk and outcome are those of the patch function, with root and temp path untouched |
| Environment.EnvironmentService.CreateTempEnvFile | src/services/environment-service.ts:74-97 | the temp path, disk and returned path are those of the create function, with the backups untouched |
| Environment.EnvironmentService.RollbackEnvironmentVariables | src/services/environment-service.ts:103-124 | the backups, temp path, disk and outcome are those of the rollback function |
| EnvironmentFacts.ReplayRestoresEarliest | src/services/environment-service.ts:103-112 | replaying from last to first leaves each backed-up existing file holding its earliest backup, creates no file and empties the list |
| EnvironmentFacts.ReplayNothing | src/services/environment-service.ts:104-106 | with no backups the replay changes nothing |
| EnvironmentFacts.ReplayOne | src/services/environment-service.ts:107-111 | replaying one backup is one write of it |
| EnvironmentFacts.PatchWrites | src/services/environment-service.ts:47-66 | patching backs up the parsed worker variables and writes `{...root, ...worker}` over the worker's file only if it exists |
| EnvironmentFacts.PatchThenRollback | src/services/environment-service.ts:47-124 | patching and then rolling back leaves the worker's file holding the serialisation of its parse and every other file as it was; an absent file stays absent |
| EnvironmentFacts.RollbackExactIffCanonical | src/services/environment-service.ts:47-124 | the rollback restores the original bytes exactly when they were already in serialised form |
| EnvironmentFacts.TempEnvFileNeverCreated | src/services/environment-service.ts:74-97 | `createTempEnvFile` deletes an old temp env file and never writes a new one, yet records and returns its path |
| EnvironmentFacts.RollbackClears | src/services/environment-service.ts:103-124 | a successful rollback empties the backups and forgets and deletes the temp env file |
| Files.Placeholder | src/services/file-service.ts:85 | the placeholder is the key wrapped in braces |
| Files.GetEnvironmentFile | src/services/file-service.ts:228-239 | the result is `.dev.vars.<env>` exactly when env is set, is not `dev` and that file exists, and `.dev.vars` otherwise; it is never empty |
| Files.ValidateWorker | src/services/file-service.ts:194-205 | succeeds exactly when a name is given and the worker directory exists; an empty name is a `ConfigurationError`, a missing worker a `FileOperationError` |
| Files.ValidateWorkersDirectory | src/services/file-service.ts:213-220 | succeeds exactly when the workers directory exists, and fails with a `FileOperationError` otherwise |
| Files.GetWorkers | src/services/file-service.ts:176-185 | the listing of the workers directory when it is a directory, and a `FileOperationError` otherwise |
| Files.FileService.constructor | src/services/file-service.ts:28-36 | a new service tracks no temp files |
| Files.FileService.RemoveIfExistsIn | src/services/file-service.ts:59-61 | deletes the file if it exists, and leaves the disk unchanged on failure |
| Files.FileService.PatchConfig | src/services/file-service.ts:98-100 | reads, patches and writes back one config, as the patch function gives |
| Files.FileService.MergeConfigFiles | src/services/file-service.ts:119-148 | the disk and merged text are those of the merge function, whose content `FilesFacts.MergeContent` states |
| Files.FileService.CopyFile | src/services/file-service.ts:63-64 | copies one file verbatim, and leaves the disk unchanged on failure |
| Files.FileService.ComposeIn | src/services/file-service.ts:55-104 | the copy, merge, substitution and renaming steps run in order up to the first failure; the resulting content is stated by `FilesFacts.ComposeWithBaseContent` and `FilesFacts.ComposeWithoutBaseContent` |
| Files.FileService.CreateTempWranglerConfig | src/services/file-service.ts:48-110 | the disk and result are those of the compose function, and the two temp paths are tracked only when it succeeds |
| Files.FileService.AddGitignore | src/services/file-service.ts:246-257 | appends each line up to the first failure, which becomes one warning |
| Files.FileService.CleanupTempFiles | src/services/file-service.ts:153-168 | deletes each tracked file, warns about each one that cannot be deleted, and clears the list |
| FilesFacts.TempPathsDistinct | src/services/file-service.ts:56-57 | a worker's two temp files never coincide |
| FilesFacts.SubstituteWithoutPlaceholders | src/services/file-service.ts:83-87 | substitution leaves a config alone when none of the placeholders occurs in it |
| FilesFacts.SubstituteSelfEntries | src/services/file-service.ts:83-87 | a variable whose key has no `$` and whose value is its own placeholder changes nothing |
| FilesFacts.PlaceholderChars | src/services/file-service.ts:85 | a placeholder `{key}` has a `$` only if its key has one, and its `{` does not recur when the key has none |
| FilesFacts.SubstituteTemplate | src/services/file-service.ts:83-87 | a config made of pieces free of the first variable's placeholder, joined by it, has the value put at exactly those places before the later variables apply |
| FilesFacts.PatchConfigAtFrame | src/services/file-service.ts:98-100 | a patch changes only the patched file, which then holds the patched text |
| FilesFacts.RemoveIfExistsFrame | src/services/file-service.ts:59-61 | a removal changes only the removed path |
| FilesFacts.CopyFrame | src/services/file-service.ts:63-64 | a copy changes only the target |
| FilesFacts.CopyInputsFrameIn | src/services/file-service.ts:59-73 | the copy step changes only the temp paths it writes |
| FilesFacts.CopyInputsFrame | src/services/file-service.ts:59-73 | the copy step writes only the two temp files, and only the temp config when there is no base config |
| FilesFacts.CopyInputsSnapshot | src/services/file-service.ts:66-73 | with a base config, the base temp file is a verbatim copy of it |
| FilesFacts.MergeFrame | src/services/file-service.ts:119-148 | merging changes only the temp config; what it writes there is stated by `FilesFacts.MergeContent` |
| FilesFacts.MergeContent | src/services/file-service.ts:127-140 | a successful merge reads the base snapshot, patches the temp config with it, replaces every `{workerName}` in the patched text as `replaceAll` does, and leaves exactly that text in the temp config and as its result |
| FilesFacts.MergeReplacesWorkerName | src/services/file-service.ts:134-135 | when the patched text is pieces free of `{workerName}` joined by it, and the name has no `$`, the merged text is the pieces joined by the worker name |
| FilesFacts.CopyInputsContent | src/services/file-service.ts:59-73 | after a successful copy step the temp config holds the worker config and the base snapshot holds the base config, or the fresh worker copy when the base path is the temp config itself |
| FilesFacts.RemoveIfExistsOk | src/services/file-service.ts:59-61 | a successful removal drops exactly that path |
| FilesFacts.CopyOk | src/services/file-service.ts:63-64 | a successful copy reads an existing file and writes its text at the target, nothing else |
| FilesFacts.FinishContent | src/services/file-service.ts:82-100 | the temp config ends as the substituted text patched with the sanitised name that text declares |
| FilesFacts.ComposeWithBaseContent | src/services/file-service.ts:48-100 | with a base config, the temp config ends as the worker config patched with the parsed base, `{workerName}` replaced, every variable substituted, then patched with the sanitised declared name |
| FilesFacts.FinishFrame | src/services/file-service.ts:82-100 | substitution and renaming change only the temp config |
| FilesFacts.ComposeFrame | src/services/file-service.ts:48-110 | composing writes at most the worker's two temp files, and only the temp config when there is no base config |
| FilesFacts.ComposeOutcome | src/services/file-service.ts:48-110 | a successful composition returns the temp config path, which exists; a failure is a `FileOperationError` naming the worker |
| FilesFacts.ComposeWithoutBaseContent | src/services/file-service.ts:63-100 | without a base config, the temp config is the worker's config with every variable substituted, then patched with its sanitised name |
| FilesFacts.ComposeSnapshotsBase | src/services/file-service.ts:66-73 | with a base config, the base snapshot left on disk is a verbatim copy of the base config |
| FilesFacts.CleanupFrame | src/services/file-service.ts:153-168 | cleanup only deletes files; it creates nothing and changes no content |
| FilesFacts.CleanupRemovesTrackedFiles | src/services/file-service.ts:153-168 | after cleanup no tracked path is a file, and the only output is at most one warning per tracked path |
| FilesFacts.AddLinesContainsAll | src/services/file-service.ts:246-257 | after a successful `addGitignore` the file includes every requested line |
| FilesFacts.AddLinesGrowsBy | src/services/file-service.ts:246-257 | `addGitignore` only appends to an existing file |
| Bindings.GetServiceBindings | src/services/service-binding-service.ts:185-201 | the bindings the config declares for the environment (or at top level), or a `WorkerCommandError` exactly when the config cannot be read |
| Bindings.ValidateService | src/services/service-binding-service.ts:209-222 | succeeds exactly when the dependency directory and its `wrangler.jsonc` exist, and fails with a `ServiceBindingError` otherwise |
| Bindings.BindOne | src/services/service-binding-service.ts:58-103 | a successful turn yields the binding's entry with the dependency's temp config, whose service is the name that composed config declares, and tracks that dependency's two temp files |
| Bindings.Resolve | src/services/service-binding-service.ts:38-134 | success needs stack to spare and a readable config; without recursion there is one entry per declared binding in order, and two temp files each; the recursive result's order is stated by `BindingsFacts.RecursiveBlocks` |
| Bindings.ResolveEach | src/services/service-binding-service.ts:58-126 | without recursion the loop yields one entry per remaining binding in order, and tracks their temp files |
| Bindings.BindAndRecurse | src/services/service-binding-service.ts:58-125 | a turn yields what the dependency's own bindings resolve to, one frame less, followed by the binding's own entry; without recursion only that entry, and two temp files |
| Bindings.ResolveEachUnroll | src/services/service-binding-service.ts:58-126 | the loop runs one turn per binding and stops at the first failure |
| Bindings.Named | src/services/service-binding-service.ts:159-170 | one named binding per entry, in order, with the per-environment sanitised service name |
| Bindings.BindOneIn | src/services/service-binding-service.ts:58-103 | the disk, temp files and entry are those of the turn function |
| Bindings.CreateServiceBindings | src/services/service-binding-service.ts:38-134 | the disk, temp files and result are those of the resolve function |
| Bindings.ResolveAll | src/services/service-binding-service.ts:58-126 | the loop over the declared bindings equals the loop function |
| Bindings.BindAndRecurseIn | src/services/service-binding-service.ts:58-125 | one turn, with its recursion, equals the turn function |
| Bindings.HandleServiceBinding | src/services/service-binding-service.ts:136-178 | the disk, temp files and result are those of the handle function |
| Bindings.NameEntries | src/services/service-binding-service.ts:159-170 | the loop yields the named bindings |
| BindingsFacts.NoBindingsNoEffect | src/services/service-binding-service.ts:48-51 | a config that declares no bindings is left alone and yields nothing |
| BindingsFacts.ResolveFailureWrapped | src/services/service-binding-service.ts:129-133 | every failure is re-raised as a `WorkerCommandError` with the prefix |
| BindingsFacts.ResolveEachDone | src/services/service-binding-service.ts:58-128 | the loop stops once every binding is done |
| BindingsFacts.ResolveRunsLoop | src/services/service-binding-service.ts:57-128 | a successful call with declared bindings takes its result from the loop over them |
| BindingsFacts.ResolveEachBlocks | src/services/service-binding-service.ts:58-126 | the loop's result is what it had collected followed by one block per remaining binding, in order, each the yield of that binding's turn on the disk the previous turn left |
| BindingsFacts.RecursiveBlocks | src/services/service-binding-service.ts:38-134 | with recursion the result is, binding after binding, the dependency's own resolved bindings followed by the binding's entry: post-order |
| BindingsFacts.SingleBlocks | src/services/service-binding-service.ts:105-125 | without recursion each turn yields exactly one entry |
| BindingsFacts.ConcatSingles | src/services/service-binding-service.ts:159-170 | one-entry blocks put together are their entries in order |
| BindingsFacts.HandleNames | src/services/service-binding-service.ts:136-178 | one binding per declared binding, in order, whose service is the name the composed dependency declares with `-<env>` appended and sanitised, so with an environment it matches `^[a-z0-9-]+$` |
| BindingsFacts.NamedEntries | src/services/service-binding-service.ts:159-170 | naming keeps one binding per declared binding and yields valid names with an environment |
| BindingsFacts.HandleTracksTempFiles | src/services/service-binding-service.ts:136-178 | two temp files are tracked per declared binding, in declaration order |
| Configuration.Validate | src/services/configuration-service.ts:96-117 | accepts exactly when a command is set, `all` excludes a worker name, and dev without `all` has a worker name; each refusal is a `ConfigurationError` with the message of the first failing check |
| Configuration.Load | src/services/configuration-service.ts:44-89 | a successful load returns the stored configuration, which names a command and does not pair `all` with a worker name |
| Configuration.ConfigurationService.constructor | src/services/configuration-service.ts:19-36 | a new service holds the initial configuration |
| Configuration.ConfigurationService.ValidateConfiguration | src/services/configuration-service.ts:96-117 | the outcome is that of the validate function |
| Configuration.ConfigurationService.OverrideFlags | src/services/configuration-service.ts:71-74 | the four flag overrides, each applied only when the flag is truthy |
| Configuration.ConfigurationService.LoadConfiguration | src/services/configuration-service.ts:44-89 | the stored configuration and the outcome are those of the load function |
| Configuration.LoadPrecedence | src/services/configuration-service.ts:50-83 | with a config file, each setting comes from a truthy flag, then the file, then the default; `all`, `env` and `command` come from the flags |
| Configuration.NoConfigFileNoCommand | src/services/configuration-service.ts:44-117 | without a config file, a fresh service always fails with "Command is required" |
| Configuration.LoadedIsStored | src/services/configuration-service.ts:44-89 | a loaded configuration is the one the service now holds, it names a command, and its root is never empty when cwd is not |
| WranglerService.ConfigFlags | src/services/wrangler-service.ts:160-163 | two words per config path |
| WranglerService.FlagValues | src/services/wrangler-service.ts:160-163 | one value per flag pair |
| WranglerService.ConfigFlagsAt | src/services/wrangler-service.ts:160-163 | each config path follows its own `-c`, in order |
| WranglerService.FlagValuesOfConfigFlags | src/services/wrangler-service.ts:160-163 | the config paths can be read back from the `-c` list |
| WranglerService.WorkerCommandArgs | src/services/wrangler-service.ts:155-170 | the command word, then `-c <path>` for each path in order, then `--env <env>` when given |
| WranglerService.SecretBulkUploadArgs | src/services/wrangler-service.ts:134-146 | `secret bulk <vars> --config <config>`, then `--env <env>` when given |
| WranglerService.ReportedCode | src/services/wrangler-service.ts:118-122 | the listener sees 0 exactly when the code is 0 or missing, and the code itself otherwise |
| WranglerService.CommandWord | src/services/wrangler-service.ts:65 | the first argument when it is non-empty, otherwise "unknown" |
| WranglerService.Settle | src/services/wrangler-service.ts:54-101 | resolves exactly on exit code 0; otherwise a `WranglerError` naming the command, the code and the arguments, with code -1 when the process cannot start |
| WranglerService.ExecuteWranglerCommand | src/services/wrangler-service.ts:54-125 | one recorded process run, settled on its outcome, with the disk untouched |
| WranglerService.ExecWorkerCommand | src/services/wrangler-service.ts:155-170 | one run with the worker-command arguments |
| WranglerService.ExecSecretBulkUpload | src/services/wrangler-service.ts:134-146 | one run with the secret-upload arguments |
| WranglerService.ExecWhoami | src/services/wrangler-service.ts:176-179 | one run of `wrangler whoami` |
| WorkerCommands.BindingPaths | src/core/worker-command-factory/dev-command.ts:101 | the temp config of each resolved binding, in order |
| WorkerCommands.ComposeStage | src/core/worker-command-factory/dev-command.ts:73-80 | records the composing stage and keeps the backups |
| WorkerCommands.BindStage | src/core/worker-command-factory/dev-command.ts:83-93 | records the binding stage and keeps the backups |
| WorkerCommands.PatchStage | src/core/worker-command-factory/dev-command.ts:96 | records the environment stage and keeps the temp files |
| WorkerCommands.DevCommand.constructor | src/core/worker-command-factory/dev-command.ts:35-49 | the executor keeps the services it is given |
| WorkerCommands.DevCommand.Execute | src/core/worker-command-factory/dev-command.ts:57-107 | the session and result are those of the dev run function, and the environment root is untouched |
| WorkerCommands.DevCommand.RunComposed | src/core/worker-command-factory/dev-command.ts:82-103 | after composition, the session and result are those of the composed dev function |
| WorkerCommands.DeployCommand.constructor | src/core/worker-command-factory/deploy-command.ts:26-34 | the executor keeps the file service it is given |
| WorkerCommands.DeployCommand.DeploySecrets | src/core/worker-command-factory/deploy-command.ts:99-119 | the session and result are those of the secrets stage |
| WorkerCommands.DeployCommand.Execute | src/core/worker-command-factory/deploy-command.ts:42-89 | the session and result are those of the deploy run function |
| WorkerCommands.DeployCommand.RunComposed | src/core/worker-command-factory/deploy-command.ts:66-85 | after composition, the session and result are those of the composed deploy function |
| WorkerCommandsFacts.DevRefusesOtherParams | src/core/worker-command-factory/dev-command.ts:60-62 | parameters of the wrong kind are refused with a `ConfigurationError` before anything happens |
| WorkerCommandsFacts.DevValidationFailure | src/core/worker-command-factory/dev-command.ts:64-66 | a worker that fails validation is recorded, nothing else changes, and the handled error is raised |
| WorkerCommandsFacts.DevComposedTrace | src/core/worker-command-factory/dev-command.ts:82-103 | after composition, bindings and then the environment run, stopping at the first failure, and only then does `wrangler dev -c <temp config>` start |
| WorkerCommandsFacts.DevTrace | src/core/worker-command-factory/dev-command.ts:57-107 | stages are recorded as validate, compose, bindings, environment; a run stops at the first failure with the handled error, and starts wrangler only after all four |
| WorkerCommandsFacts.DevRunArgs | src/core/worker-command-factory/dev-command.ts:98-103 | `dev` gets the temp config and then each binding's temp config in resolver order, and its settlement is the result |
| WorkerCommandsFacts.DevBindsComposedConfig | src/core/worker-command-factory/dev-command.ts:83-93 | bindings are resolved on the composed config, with the worker's base config, variables and environment |
| WorkerCommandsFacts.DeployRefusesOtherParams | src/core/worker-command-factory/deploy-command.ts:43-45 | parameters of the wrong kind are refused with a `ConfigurationError` before anything happens |
| WorkerCommandsFacts.DeployPlain | src/core/worker-command-factory/deploy-command.ts:79-85 | without both `deploySecrets` and an environment, exactly one `wrangler deploy` starts, and its settlement is returned unhandled |
| WorkerCommandsFacts.DeployWithSecrets | src/core/worker-command-factory/deploy-command.ts:66-77 | the deploy runs first and a failure stops the run; then the env file is uploaded if it exists, and a failed upload is a handled `WorkerCommandError` naming the worker |
| WorkerCommandsFacts.DeployTrace | src/core/worker-command-factory/deploy-command.ts:42-89 | a deploy validates and then composes, stopping at the first failure; it never resolves bindings or patches env files |
| WorkerCommandsFacts.DeployComposedSpawnsOnly | src/core/worker-command-factory/deploy-command.ts:66-85 | after composition a deploy only starts one or two processes |
| Commands.ParamsOf | src/core/commands/worker/wrangler-command.ts:27-36 | the parameters carry the configured command, the argument's worker name and the configured paths and variables, and `deploySecrets` only for deploy |
| Commands.Command.constructor | src/core/commands/abstract-command.ts:17-22 | a new command has fresh services in their initial state |
| Commands.Command.ExecuteWithErrorHandling | src/core/commands/abstract-command.ts:43-51 | the configuration, session and result are those of the handled function |
| Commands.Command.Execute | src/core/commands/worker/wrangler-command.ts:19-58 | the configuration, session and result are those of the executed function for the command's class |
| Commands.Command.Finally | src/core/commands/worker/wrangler-command.ts:63-68 | the session becomes that of the cleanup function |
| Commands.Command.RunWrangler | src/core/commands/worker/wrangler-command.ts:19-58 | the configuration, session and result are those of the `worker` run function |
| Commands.Command.RunLoaded | src/core/commands/worker/wrangler-command.ts:23-57 | once loaded, the session and result are those of the selection function |
| Commands.Command.RunWorkers | src/core/commands/worker/wrangler-command.ts:47-52 | the loop over the workers equals the fold of the executor over them |
| Commands.Command.RunOne | src/core/commands/worker/wrangler-command.ts:51 | one awaited run equals the executor for the parameters' command |
| Commands.RunEachStep | src/core/commands/worker/wrangler-command.ts:49-52 | one turn of the loop: a failure ends it, success goes on with the rest |
| Commands.RunEachOne | src/core/commands/worker/wrangler-command.ts:54 | running a single named worker is one run of the executor |
| CommandsFacts.ExecutorValidatesOnce | src/core/worker-command-factory/index.ts:23-59 | the dev and deploy executors only append to the output, and start exactly one worker run, their own |
| CommandsFacts.DevAddsOneValidation | src/core/worker-command-factory/dev-command.ts:57-107 | a dev trace names its own worker once |
| CommandsFacts.DeployAddsOneValidation | src/core/worker-command-factory/deploy-command.ts:42-89 | a deploy trace names its own worker once |
| CommandsFacts.RunEachInOrder | src/core/commands/worker/wrangler-command.ts:47-52 | workers run one at a time in listed order: those started are a prefix of the list, all of it on success, and at least one on failure |
| CommandsFacts.AllRunsListedWorkers | src/core/commands/worker/wrangler-command.ts:47-52 | with `--all`, the listed workers of the directory run in order, stopping at the first failure |
| CommandsFacts.NamedWorkerRunsOnce | src/core/commands/worker/wrangler-command.ts:53-54 | without `--all`, exactly the named worker runs, once |
| CommandsFacts.NoWorkerSelected | src/core/commands/worker/wrangler-command.ts:55-56 | without `--all` and without a name, nothing runs and a `ConfigurationError` is raised |
| CommandsFacts.MissingWorkersDirectory | src/core/commands/worker/wrangler-command.ts:24 | a missing workers directory fails with a `FileOperationError` before any worker runs |
| CommandsFacts.LoadFailureRunsNothing | src/core/commands/worker/wrangler-command.ts:21 | a configuration that does not load or validate stops the command before anything else |
| CommandsFacts.RaisedTwice | src/core/commands/abstract-command.ts:46-47 | an error the framework threw is reported unchanged when it is handled again |
| CommandsFacts.HandledEnds | src/core/commands/abstract-command.ts:43-51 | a command ends normally exactly when `execute` did, or else with the handled exit error and code 1; worker commands always end with their temp files deleted and untracked |
| CommandsFacts.WhoamiRunsOnce | src/core/commands/whoami/index.ts:20-22 | `whoami` starts one `wrangler whoami` and changes nothing else |
| Factory.Dispatched | src/core/commands/command-factory.ts:45-53 | an unregistered name fails with the factory's error and no effect; a registered one ends normally or with exit code 1, and a worker command leaves no temp file tracked |
| Factory.CommandFactory.constructor | src/core/commands/command-factory.ts:9 | the table starts empty |
| Factory.CommandFactory.RegisterCommand | src/core/commands/command-factory.ts:16-18 | the name now maps to the class, replacing any earlier registration |
| Factory.CommandFactory.CreateCommand | src/core/commands/command-factory.ts:27-35 | creation succeeds exactly for a registered name and yields a fresh command of its class; otherwise it fails with "Command '<name>' is not registered" |
| Factory.CommandFactory.ExecuteCommand | src/core/commands/command-factory.ts:45-53 | the disk, output and result are those of dispatching the name, and the table is unchanged |
| Registry.Names | src/core/commands/registry.ts:83-85 | exactly the names the registrations carry |
| Registry.RegisterAll | src/core/commands/registry.ts:83-85 | the registered names are the old ones plus those of the registrations |
| Registry.LastRegistrationWins | src/core/commands/registry.ts:83-85 | the last registration of a name decides its class |
| Registry.UnregisteredNameKept | src/core/commands/registry.ts:83-85 | a name that is not registered again keeps its class |
| Registry.RegisterAllTwice | src/core/commands/registry.ts:77-88 | forwarding the registrations a second time changes nothing |
| Registry.BuiltInTable | src/core/commands/registry.ts:61-67 | the built-ins on an empty factory give exactly `whoami`, `worker` and `worker:create` |
| Registry.CommandRegistry.constructor | src/core/commands/registry.ts:42-45 | a new registry is uninitialised and holds the three built-ins in order |
| Registry.CommandRegistry.RegisterCommand | src/core/commands/registry.ts:52-54 | the registration is appended, even for a name already listed |
| Registry.CommandRegistry.RegisterBuiltInCommands | src/core/commands/registry.ts:61-67 | the three built-ins are appended in order |
| Registry.CommandRegistry.Initialize | src/core/commands/registry.ts:77-88 | the first call forwards every registration in list order and later calls do nothing; afterwards the registry is initialised |
| Registry.CommandRegistry.GetCommands | src/core/commands/registry.ts:114-116 | a fresh array holding the registrations |
| Registry.Statics.constructor | src/core/commands/registry.ts:24 | no registry instance yet and an empty factory table |
| Registry.Statics.GetInstance | src/core/commands/registry.ts:31-37 | the first call builds the single registry and later calls return the same one |
| Registry.Statics.ExecuteCommand | src/core/commands/registry.ts:97-108 | the registry is initialised once, and the disk, output and result are those of dispatching the name in the factory table |
| Registry.UnknownCommandRefused | src/core/commands/registry.ts:97-108 | in a fresh process a name other than the three built-ins is refused with the factory's error and nothing else happens |

## Left out

- Path normalisation: `Host.Join` drops empty segments and joins with `/`; it does not resolve `..` or `.` segments or repeated separators.
- Wrangler's config reader and patcher, `dotenv.parse`, `JSON.parse` of `worker.config.json` and the `wrangler` executable are foreign code. They are fields of `World`, so every property holds whatever they do.
- Effects of the `wrangler` process itself on disk, its output listeners, and the spinner and logging are not modelled. `LogService` is not part of this model.
- Asynchrony: promises are modelled as completing in order. An unawaited run's rejection passes its executor's `catch`; awaited failures are handled there. Concurrency between runs is not modelled.
- The `worker:create` command downloads a template and is foreign here: `World.createWorker` stands for it. `WranglerService.createWorker` (src/services/wrangler-service.ts:189-266) is left out for the same reason.
- The oclif command classes, flag parsing and `src/utils/version.ts` are not part of this model.
- `TEMP_ENV_FILE` has no definition in src/types/wrangler-types.ts, so its value is a constructor parameter of `EnvironmentService`.
- Stack overflow: the recursion of `createServiceBindings` is bounded by `World.stackDepth`. Running out of stack becomes a `RangeError`, which the function's own `catch` wraps like any other error.
- Bindings.Resolve: cyclic service bindings recurse until the stack runs out. They are modelled as the bounded recursion above, not as an endless loop.
- Wiring mismatches in the source are not reproduced; the intended calls are modelled. `WorkerCommandFactory.createCommand` expects an environment service that `WranglerCommand` does not pass. `DevCommand` is constructed without its log service. `DeployCommand` calls `execWorkerCommand` with four arguments where the service takes three.
- The `default` branch of `WorkerCommandFactory.createCommand` (unknown command word) cannot be reached: `WorkerCommand` is `dev` or `deploy`, and validation requires a command.
- The configuration getters of `ConfigurationService` only return the stored fields and are not modelled separately.
- Factory.CommandFactory.CreateCommand: names inherited from `Object.prototype` (such as `toString`) are treated as unregistered; in the source the lookup finds the inherited function.
- Registry.CommandRegistry.GetCommands: registrations are values, so the copy it returns cannot alias the registry's own entries.
- FsUtil.AppendLine: the append is modelled as synchronous. In the source `appendFile` is asynchronous and its error is thrown in a callback, outside the `try` of `addGitignore`.
- Environment.EnvironmentService.PatchEnvironmentFile: the early return for an empty env-file path (src/services/environment-service.ts:53-55) cannot happen, because `getEnvironmentFile` never returns an empty path (`Files.GetEnvironmentFile`), so it is not written.
- Commands.Command.RunWorkers: the executor is constructed after the workers are listed, not before the `--all` branch. Constructing it has no effect, so nothing observable changes. A named worker runs as a loop over a one-element list.
- JavaScript object keys that look like integers are ordered first by the engine; the model keeps insertion order for every key.
- Strings are sequences of Unicode scalar values. Each becomes one or two UTF-16 code units (`Names.Utf16`), so a string holding a lone surrogate code unit cannot be written in the model.
- FilesFacts.SubstituteSelfEntries, FilesFacts.SubstituteTemplate and FilesFacts.MergeReplacesWorkerName require the replacement text to have no `$`. `Strings.ReplaceAll` does model the `$` patterns, and `FilesFacts.MergeContent` and `FilesFacts.ComposeWithBaseContent` hold for any text. The three lemmas say nothing when a value or the worker name contains `$`.
- Host.World.WriteFile: the model's disk refuses a write only when the path is a directory. The permission, read-only, busy and missing-parent failures of `writeFileSync` (EACCES, EPERM, EROFS, EBUSY, ENOENT) are not modelled.
- Host.World.Unlink: the model's disk refuses an unlink only on a directory or a missing path. The permission and busy failures of `unlinkSync` are not modelled.
- FilesFacts.CleanupRemovesTrackedFiles: "no tracked path is a file" holds because the model's unlink cannot fail on a file. In the source, `cleanupTempFiles` catches such a failure, warns, and leaves the file in place; the model reaches that warning only for a tracked path that is a directory.
- CommandsFacts.HandledEnds: "temp files deleted" rests on the same simplification. A temp file that Node refuses to unlink stays on disk in the source, with a warning.
