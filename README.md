# NuGet task plugin for GoCD, modelled in Dafny

The plugin adds a NuGet task to GoCD pipelines. GoCD sends the plugin requests by name:

- "configuration" asks which properties the task has;
- "validate" checks a task's settings;
- "execute" runs `nuget` with a command line built from the settings.

This project models the core of that plugin:

- **TaskPlugin** (`task_plugin.dfy`): the eleven NuGet commands, the command sets that guard the positional arguments and the options, the property names, and the routing of a request by its name.
- **TaskConfig** (`task_config.dfy`): reads the typed configuration from the property map of a request. Text properties are read with getValue and switches with getBooleanValue (`Boolean.parseBoolean`).
- **Java string helpers** (`java_strings.dfy`): `String.trim`, `Boolean.parseBoolean` and `Integer.toString` as the core uses them.
- **Environment expansion** (`env_expansion.dfy`): expandEnvVars. Every `${NAME}` is replaced, first from the task context's environment and then from the agent's own. If nothing was replaced, the whole value is read as a variable name.
- **NuGetTaskExecutor** (`nuget_options.dfy`, `nuget_task_executor.dfy`, `command_line_facts.dfy`): createNuGetProcessWithOptions builds the argument list step by step:
  - "nuget", the command, and its positional arguments;
  - `-NonInteractive`;
  - three unguarded options, then seventeen option blocks, each guarded by a command set.

  Each step is proved equal to a specification function (`CommandLine`), and the properties of the command line are proved about that function. The mapping from the process's exit to the task's result is modelled too, with the exceptions raised before the process starts: copying the context's variables into the process environment refuses a null value (NullPointerException) or a name holding '=' or NUL or a value holding NUL (IllegalArgumentException), and starting the process refuses a null word in the list (NullPointerException).
- **ValidateRequest** (`validate_request.dfy`): the validator.
  - The request fails with a NullPointerException when the command is missing or null.
  - It fails with a ClassCastException when a property it reads as a string holds a boolean.
  - Otherwise it returns the error map: "command" when the command is blank, and each argument that the trimmed command requires but that is not defined.
- **GetConfigRequest** (`get_config_request.dfy`): a class with the display-order counter as its field.
  - Its addConfigProperty overloads update that counter.
  - `execute` makes 107 declarations in source order. It is proved equal to a fold (`Declared`) over the trail of those declarations.
  - The conventions every declaration keeps are proved: no default value, a display name, required only for the command, secure only for the three secrets, and none of the undeclared properties.

Some behaviours of the source are kept as written:

- The validator's "command" message lists ten commands and leaves out setapikey.
- When delete's package version is missing, its message names argPackageIdOrFilePath.
- `-Verbosity`, `-DependencyVersion`, `-PackageSaveMode`, `-SymbolPackageFormat`, `-Format` and `-FileConflictAction` are never expanded, even when their FromEnv flag is set.

Environments are parameters of the model. An environment is the sequence of entries its iteration visits, since the order of a Java map's iteration is not fixed. The process's exit is a parameter too (`RunOutcome`).

## Model

| member | source | states |
|---|---|---|
| JavaStrings.TrimStart | src/main/java/cd/go/contrib/task/nuget/ValidateRequest.java:65 | the result is a suffix of the text, every character dropped is at most U+0020, and the result does not start with such a character |
| JavaStrings.TrimEnd | src/main/java/cd/go/contrib/task/nuget/ValidateRequest.java:65 | the result is a prefix of the text, every character dropped is at most U+0020, and the result does not end with such a character |
| JavaStrings.TrimStartOfPadded | src/main/java/cd/go/contrib/task/nuget/ValidateRequest.java:65 | leading blanks before a word that does not start with one are exactly what is dropped |
| JavaStrings.TrimEndOfPadded | src/main/java/cd/go/contrib/task/nuget/ValidateRequest.java:65 | trailing blanks after a word that does not end with one are exactly what is dropped |
| JavaStrings.TrimOfPadded | src/main/java/cd/go/contrib/task/nuget/ValidateRequest.java:65 | trim gives back a word unchanged from any padding of blanks around it |
| JavaStrings.BlankTrimsToEmpty | src/main/java/cd/go/contrib/task/nuget/ValidateRequest.java:38 | a text trims to empty exactly when all its characters are at most U+0020 |
| JavaStrings.ParseBoolean | src/main/java/cd/go/contrib/task/nuget/TaskConfig.java:287-288 | true exactly for "true" in any mix of upper and lower case |
| JavaStrings.NatToString | src/main/java/cd/go/contrib/task/nuget/GetConfigRequest.java:65 | a non-empty string of decimal digits with no leading zero except for 0 itself |
| JavaStrings.IntToString | src/main/java/cd/go/contrib/task/nuget/GetConfigRequest.java:65 | the digits of the number, after a minus sign when it is negative |
| JavaStrings.DecimalRoundTrip | src/main/java/cd/go/contrib/task/nuget/GetConfigRequest.java:65 | reading back the digits written for a display order gives the same number |
| JavaStrings.NatToStringInjective | src/main/java/cd/go/contrib/task/nuget/GetConfigRequest.java:65 | different display orders are written as different strings |
| TaskPlugin.Parse | src/main/java/cd/go/contrib/task/nuget/TaskPlugin.java:42-92 | a token that names a command is exactly that command's CMD_* constant |
| TaskPlugin.ParseToken | src/main/java/cd/go/contrib/task/nuget/TaskPlugin.java:42-92 | the CMD_* constant of every command names that command |
| TaskPlugin.TokensDistinct | src/main/java/cd/go/contrib/task/nuget/TaskPlugin.java:42-92 | the eleven CMD_* constants are pairwise distinct |
| TaskPlugin.ContainsToken | src/main/java/cd/go/contrib/task/nuget/TaskPlugin.java:97-147 | a CMDSET_* set contains a token exactly when the token is the constant of one of its commands |
| TaskPlugin.CommandSetFacts | src/main/java/cd/go/contrib/task/nuget/TaskPlugin.java:102-137 | the positional-argument set holds exactly the commands other than config, setapikey, init and sources; the -Source set holds setapikey and sources but not pack, config or init; install/restore lies within install/pack/restore, and pack/restore within pack/restore/update |
| TaskPlugin.FromEnv | src/main/java/cd/go/contrib/task/nuget/TaskPlugin.java:522-527 | the FromEnv property of a key is the key followed by "FromEnv" |
| TaskPlugin.Handle | src/main/java/cd/go/contrib/task/nuget/TaskPlugin.java:723-736 | a known request name reaches the handler of that name; any other name fails with UnhandledRequestTypeException carrying the name |
| TaskPlugin.HandleRoutes | src/main/java/cd/go/contrib/task/nuget/TaskPlugin.java:724-733 | each of the five request names reaches its own handler |
| TaskConfiguration.GetValue | src/main/java/cd/go/contrib/task/nuget/TaskConfig.java:260-268 | null exactly for a missing property or a null value, and otherwise the stored string |
| TaskConfiguration.GetBooleanValue | src/main/java/cd/go/contrib/task/nuget/TaskConfig.java:276-292 | true exactly for a boolean true, or for a string that parseBoolean reads as true; false for a missing property or a null value |
| TaskConfiguration.FromProperties | src/main/java/cd/go/contrib/task/nuget/TaskConfig.java:140-252 | the command, every argument and every text option are read with getValue from the property of their own name; every switch and FromEnv flag is read with getBooleanValue; nothing else is set |
| TaskConfiguration.FieldsAreLocal | src/main/java/cd/go/contrib/task/nuget/TaskConfig.java:140-252 | each field depends only on the property it is read from |
| TaskConfiguration.EmptyRequest | src/main/java/cd/go/contrib/task/nuget/TaskConfig.java:260-292 | an empty request gives a null command, null values and no switch set |
| EnvExpansion.Lookup | src/main/java/cd/go/contrib/task/nuget/NuGetTaskExecutor.java:55-60 | a value found is stored under that name; a name that is absent reads as null |
| EnvExpansion.Pattern | src/main/java/cd/go/contrib/task/nuget/NuGetTaskExecutor.java:41 | the reference to a variable is three characters longer than its name and starts with '$' |
| EnvExpansion.ReplaceInTextWithoutReference | src/main/java/cd/go/contrib/task/nuget/NuGetTaskExecutor.java:41 | replaceAll leaves a text without a '$' unchanged |
| EnvExpansion.ReplaceSingleReference | src/main/java/cd/go/contrib/task/nuget/NuGetTaskExecutor.java:41 | the one reference in a text is replaced and the text around it is kept |
| EnvExpansion.SubstituteInTextWithoutReference | src/main/java/cd/go/contrib/task/nuget/NuGetTaskExecutor.java:37-51 | neither substitution loop changes a text without references |
| EnvExpansion.ExpandEnvVars | src/main/java/cd/go/contrib/task/nuget/NuGetTaskExecutor.java:33-65 | a null text fails with a NullPointerException; any other text gives its expansion |
| EnvExpansion.WholeValueIsVariableName | src/main/java/cd/go/contrib/task/nuget/NuGetTaskExecutor.java:53-62 | a text without references expands to the context variable of that name when it is set and non-empty, and otherwise to the process variable, which may be null |
| EnvExpansion.LookupEntry | src/main/java/cd/go/contrib/task/nuget/NuGetTaskExecutor.java:55 | in a map with distinct names, Map.get finds each entry's value under its own name |
| EnvExpansion.WithValues | src/main/java/cd/go/contrib/task/nuget/NuGetTaskExecutor.java:39-40 | keeps only entries whose value is not null, each taken from the map |
| EnvExpansion.SubstitutionSkipsNullValues | src/main/java/cd/go/contrib/task/nuget/NuGetTaskExecutor.java:37-51 | substitution gives the same text as substitution over the entries that have values: null entries are skipped |
| EnvExpansion.ReplaceOtherName | src/main/java/cd/go/contrib/task/nuget/NuGetTaskExecutor.java:41 | replacing the references of one plain name leaves a reference to another plain name untouched |
| EnvExpansion.SubstituteUnsetName | src/main/java/cd/go/contrib/task/nuget/NuGetTaskExecutor.java:37-51 | a map holding no value under a name leaves the one reference to it in the text |
| EnvExpansion.SubstituteSetName | src/main/java/cd/go/contrib/task/nuget/NuGetTaskExecutor.java:37-51 | a map holding a value under a name replaces the one reference to it by that value, whatever else the map holds |
| EnvExpansion.LaterEntriesKeep | src/main/java/cd/go/contrib/task/nuget/NuGetTaskExecutor.java:37-51 | once the earlier entries leave no reference in the text, the last entry changes nothing |
| EnvExpansion.LastEntryReplaces | src/main/java/cd/go/contrib/task/nuget/NuGetTaskExecutor.java:37-51 | the last entry replaces the one reference to its name that the earlier entries left in place |
| EnvExpansion.ReferenceFromContext | src/main/java/cd/go/contrib/task/nuget/NuGetTaskExecutor.java:37-51 | a reference to a variable the context sets is replaced by the context's value, whatever the rest of the context and the process environment hold |
| EnvExpansion.ReferenceFromProcess | src/main/java/cd/go/contrib/task/nuget/NuGetTaskExecutor.java:37-51 | a reference to a variable the context lacks or holds as null is replaced by the process environment's value |
| EnvExpansion.UnsetReference | src/main/java/cd/go/contrib/task/nuget/NuGetTaskExecutor.java:53-62 | a reference that neither environment sets is left as it is, so the whole text is looked up as a variable name, as for "${UNSET}" |
| EnvExpansion.InstallOutputDirectoryExample | src/test/java/cd/go/contrib/task/nuget/NuGetTaskExecutorTest.java:51-67 | an output directory written with a reference to PackageVersion expands, in any context setting it to 13.0.3, to the test's expected ./build/test-results/13.0.3/Newtonsoft.Json |
| NuGetTaskExecutor.ArgumentValue | src/main/java/cd/go/contrib/task/nuget/NuGetTaskExecutor.java:136-148 | a positional argument is its raw value, null included; with its FromEnv flag set, it is the expansion, which fails on null |
| NuGetTaskExecutor.AddOption | src/main/java/cd/go/contrib/task/nuget/NuGetTaskExecutor.java:154-168 | one option appends exactly what the specification of the option list says for it |
| NuGetTaskExecutor.AddPositionalArguments | src/main/java/cd/go/contrib/task/nuget/NuGetTaskExecutor.java:134-149 | appends the positional arguments of the command in order, or fails with the first argument's failure |
| NuGetTaskExecutor.AddInstallPackUpdateOptions | src/main/java/cd/go/contrib/task/nuget/NuGetTaskExecutor.java:171-177 | the block is considered exactly when its command set contains the command, and then appends its options in order |
| NuGetTaskExecutor.AddSourceOptions | src/main/java/cd/go/contrib/task/nuget/NuGetTaskExecutor.java:179-185 | as above, for -Source |
| NuGetTaskExecutor.AddInstallPackRestoreOptions | src/main/java/cd/go/contrib/task/nuget/NuGetTaskExecutor.java:187-199 | as above, for -OutputDirectory and -SolutionDirectory |
| NuGetTaskExecutor.AddInstallOptions | src/main/java/cd/go/contrib/task/nuget/NuGetTaskExecutor.java:201-211 | as above, for install's own options |
| NuGetTaskExecutor.AddPackOptions | src/main/java/cd/go/contrib/task/nuget/NuGetTaskExecutor.java:213-285 | as above, for pack's fifteen options |
| NuGetTaskExecutor.AddInstallRestoreOptions | src/main/java/cd/go/contrib/task/nuget/NuGetTaskExecutor.java:287-315 | as above, for the install/restore options |
| NuGetTaskExecutor.AddInstallUpdateOptions | src/main/java/cd/go/contrib/task/nuget/NuGetTaskExecutor.java:317-327 | as above, for -DependencyVersion and -PreRelease |
| NuGetTaskExecutor.AddPackRestoreUpdateOptions | src/main/java/cd/go/contrib/task/nuget/NuGetTaskExecutor.java:329-341 | as above, for the MSBuild options |
| NuGetTaskExecutor.AddPackRestoreOptions | src/main/java/cd/go/contrib/task/nuget/NuGetTaskExecutor.java:343-349 | as above, for -PackagesDirectory |
| NuGetTaskExecutor.AddPushDeleteOptions | src/main/java/cd/go/contrib/task/nuget/NuGetTaskExecutor.java:351-361 | as above, for -ApiKey and -NoServiceEndpoint |
| NuGetTaskExecutor.AddPushOptions | src/main/java/cd/go/contrib/task/nuget/NuGetTaskExecutor.java:363-393 | as above, for push's own options |
| NuGetTaskExecutor.AddConfigOptions | src/main/java/cd/go/contrib/task/nuget/NuGetTaskExecutor.java:395-407 | as above, for -Set and -AsPath |
| NuGetTaskExecutor.AddRestoreOptions | src/main/java/cd/go/contrib/task/nuget/NuGetTaskExecutor.java:409-441 | as above, for restore's own options |
| NuGetTaskExecutor.AddAddInitOptions | src/main/java/cd/go/contrib/task/nuget/NuGetTaskExecutor.java:443-447 | as above, for -Expand |
| NuGetTaskExecutor.AddDeleteOptions | src/main/java/cd/go/contrib/task/nuget/NuGetTaskExecutor.java:449-453 | as above, for -NoPrompt |
| NuGetTaskExecutor.AddSourcesOptions | src/main/java/cd/go/contrib/task/nuget/NuGetTaskExecutor.java:455-499 | as above, for sources' own options |
| NuGetTaskExecutor.AddUpdateOptions | src/main/java/cd/go/contrib/task/nuget/NuGetTaskExecutor.java:501-527 | as above, for update's own options |
| NuGetTaskExecutor.AddOptions | src/main/java/cd/go/contrib/task/nuget/NuGetTaskExecutor.java:154-528 | the whole option section is the specified option list, in emission order |
| NuGetTaskExecutor.CreateNuGetProcessWithOptions | src/main/java/cd/go/contrib/task/nuget/NuGetTaskExecutor.java:126-530 | the argument list built step by step is the specified command line, failures included |
| NuGetTaskExecutor.RunResult | src/main/java/cd/go/contrib/task/nuget/NuGetTaskExecutor.java:74-118 | success exactly on exit code 0, with "NuGet execution complete."; every other exit code gives the one failure message |
| NuGetTaskExecutor.EntryError | src/main/java/cd/go/contrib/task/nuget/NuGetTaskExecutor.java:102 | a context variable is accepted exactly when its name holds no '=' or NUL and its value is non-null without NUL; the name is checked first, so a null value gives NullPointerException only under an acceptable name |
| NuGetTaskExecutor.ContextError | src/main/java/cd/go/contrib/task/nuget/NuGetTaskExecutor.java:102 | putAll throws nothing exactly when every context variable is accepted, and otherwise a NullPointerException or an IllegalArgumentException |
| NuGetTaskExecutor.FirstRefused | src/main/java/cd/go/contrib/task/nuget/NuGetTaskExecutor.java:102 | the exception putAll throws is that of the first refused variable in the context's order |
| NuGetTaskExecutor.Execution | src/main/java/cd/go/contrib/task/nuget/NuGetTaskExecutor.java:74-117 | execute fails exactly when building the command line fails, when some context variable is refused by the process environment, or when the list holds a null word; after a successful build the exception is a NullPointerException or an IllegalArgumentException; otherwise it succeeds exactly on exit code 0 |
| NuGetTaskExecutor.FirstRefusedDecides | src/main/java/cd/go/contrib/task/nuget/NuGetTaskExecutor.java:99-105 | after a successful build, the first refused context variable decides the exception, ahead of any null word in the list |
| NuGetTaskExecutor.IllegalNameBeforeNullValue | src/main/java/cd/go/contrib/task/nuget/NuGetTaskExecutor.java:102 | a variable named "A=B" ahead of a null-valued one makes the run throw IllegalArgumentException rather than NullPointerException |
| NuGetTaskExecutor.Execute | src/main/java/cd/go/contrib/task/nuget/NuGetTaskExecutor.java:74-117 | the run as the plugin performs it, checking each context variable in order and then the words before the start, agrees with Execution |
| CommandLineFacts.EmitAllExtendsBase | src/main/java/cd/go/contrib/task/nuget/NuGetTaskExecutor.java:151-528 | considering options only appends: the list built before stays in front |
| CommandLineFacts.ArgumentWordsMeaning | src/main/java/cd/go/contrib/task/nuget/NuGetTaskExecutor.java:134-149 | the positional arguments exist exactly when each one can be computed, and then there is one word per key, in order; any failure is a NullPointerException |
| CommandLineFacts.ArgumentKeysByCommand | src/main/java/cd/go/contrib/task/nuget/NuGetTaskExecutor.java:134-149 | the if-chain gives each command its positional arguments (the package for seven commands, plus the version for delete; the key for setapikey; source and destination for init; the operation for sources) and gives none to any other token |
| CommandLineFacts.ArgumentListPrefix | src/main/java/cd/go/contrib/task/nuget/NuGetTaskExecutor.java:126-152 | whatever the order of the options, the list starts with "nuget", the command verbatim and its positional arguments, and -NonInteractive comes right after them |
| CommandLineFacts.ArgumentListFailure | src/main/java/cd/go/contrib/task/nuget/NuGetTaskExecutor.java:130-149 | building fails exactly when the command is null, or when a positional argument flagged FromEnv is null; the failure is a NullPointerException |
| CommandLineFacts.EmitAllIgnoresEnvironments | src/main/java/cd/go/contrib/task/nuget/NuGetTaskExecutor.java:154-528 | with no FromEnv flag set, the options do not depend on the environments |
| CommandLineFacts.ArgumentListIgnoresEnvironments | src/main/java/cd/go/contrib/task/nuget/NuGetTaskExecutor.java:126-530 | with no FromEnv flag set, the whole list does not depend on the environments |
| CommandLineFacts.OptionWords | src/main/java/cd/go/contrib/task/nuget/NuGetTaskExecutor.java:154-168 | a switch writes one token exactly when it is set; a valued option writes its flag and a value exactly when the value is neither null nor empty, with no trimming; the value is raw unless the option may be expanded and its FromEnv flag is set |
| CommandLineFacts.NeverExpandedOptions | src/main/java/cd/go/contrib/task/nuget/NuGetTaskExecutor.java:164-168 | -Verbosity, -DependencyVersion, -PackageSaveMode, -SymbolPackageFormat, -Format and -FileConflictAction always write their raw value |
| CommandLineFacts.ConfigSkipsFirstBlocks | src/main/java/cd/go/contrib/task/nuget/NuGetTaskExecutor.java:171-211 | config is in none of these blocks' guards, so they add nothing |
| CommandLineFacts.ConfigSkipsPackBlocks | src/main/java/cd/go/contrib/task/nuget/NuGetTaskExecutor.java:213-341 | config is in none of these blocks' guards |
| CommandLineFacts.ConfigSkipsPushBlocks | src/main/java/cd/go/contrib/task/nuget/NuGetTaskExecutor.java:343-393 | config is in none of these blocks' guards |
| CommandLineFacts.ConfigSkipsLaterBlocks | src/main/java/cd/go/contrib/task/nuget/NuGetTaskExecutor.java:409-527 | config is in none of these blocks' guards |
| CommandLineFacts.ConfigTakesConfigBlock | src/main/java/cd/go/contrib/task/nuget/NuGetTaskExecutor.java:395-407 | config's own block writes -Set and then -AsPath |
| CommandLineFacts.ConfigCommandOptions | src/main/java/cd/go/contrib/task/nuget/NuGetTaskExecutor.java:154-528 | config takes only -ConfigFile, -ForceEnglishOutput, -Verbosity, -Set and -AsPath, in that order |
| CommandLineFacts.ConfigCommandLine | src/main/java/cd/go/contrib/task/nuget/NuGetTaskExecutor.java:126-530 | config's command line is nuget, config, -NonInteractive and then those five options |
| CommandLineFacts.SetOnlyContributions | src/main/java/cd/go/contrib/task/nuget/NuGetTaskExecutor.java:395-407 | a config task with only a setting writes -Set and the setting, and nothing else, unless the setting is empty |
| CommandLineFacts.ConfigSetExample | src/test/java/cd/go/contrib/task/nuget/NuGetTaskExecutorTest.java:91-107 | the test's command line is [nuget, config, -NonInteractive, -Set, test_config=test_value] |
| CommandLineFacts.ConfigSetEmptyValueExample | src/test/java/cd/go/contrib/task/nuget/NuGetTaskExecutorTest.java:111-127 | the test's command line is [nuget, config, -NonInteractive, -Set, test_config=] |
| CommandLineFacts.ContributionsAppend | src/main/java/cd/go/contrib/task/nuget/NuGetTaskExecutor.java:154-528 | the words of two runs of options are those of the first run followed by those of the second |
| CommandLineFacts.EmitAllWritesActiveOptions | src/main/java/cd/go/contrib/task/nuget/NuGetTaskExecutor.java:154-528 | considering a trail of options appends exactly the words of the options whose blocks admit the command, in order |
| CommandLineFacts.ThenWritesOption | src/main/java/cd/go/contrib/task/nuget/NuGetTaskExecutor.java:154-528 | one more option appends its own words after those of the options before it |
| CommandLineFacts.GuardedWritesBlock | src/main/java/cd/go/contrib/task/nuget/NuGetTaskExecutor.java:171-527 | a guarded block appends the words of its options when its guard contains the command, and nothing otherwise |
| CommandLineFacts.Within | src/main/java/cd/go/contrib/task/nuget/NuGetTaskExecutor.java:171-527 | enclosing options in a block adds its guard, outermost, to each option's guards |
| CommandLineFacts.SelectMembers | src/main/java/cd/go/contrib/task/nuget/NuGetTaskExecutor.java:171-527 | an option is selected exactly when it has a placement all of whose guards contain the command |
| CommandLineFacts.SelectAppend | src/main/java/cd/go/contrib/task/nuget/NuGetTaskExecutor.java:171-527 | selecting from two runs of placements is selecting from each in turn |
| CommandLineFacts.SelectWithin | src/main/java/cd/go/contrib/task/nuget/NuGetTaskExecutor.java:171-527 | the options of a block are selected exactly when its guard contains the command |
| CommandLineFacts.AdmitsOneMore | src/main/java/cd/go/contrib/task/nuget/NuGetTaskExecutor.java:171-527 | one more enclosing guard admits the command exactly when it and every other guard contain it |
| CommandLineFacts.ActiveOptionsAreAdmitted | src/main/java/cd/go/contrib/task/nuget/NuGetTaskExecutor.java:154-528 | the options a trail writes for a command are exactly those whose enclosing guards all contain it, in trail order |
| CommandLineFacts.OptionsFollowCommandSets | src/main/java/cd/go/contrib/task/nuget/NuGetTaskExecutor.java:154-528 | for every command, the options section is the words of exactly the options all of whose governing command sets contain the command, in emission order; an option outside one of its sets writes nothing, whatever its value |
| CommandLineFacts.CommandLineShape | src/main/java/cd/go/contrib/task/nuget/NuGetTaskExecutor.java:126-530 | for every command, a built list is nuget, the command, its positional arguments, -NonInteractive, then the words of the options its command sets admit |
| CommandLineFacts.InstallWithoutPackageThrows | src/main/java/cd/go/contrib/task/nuget/NuGetTaskExecutor.java:99-105 | an install task without its package argument puts null in the list, so execute always throws, and throws a NullPointerException whenever the context's variables are accepted |
| ValidateRequest.ConfigVarIsNotDefined | src/main/java/cd/go/contrib/task/nuget/ValidateRequest.java:37-39 | "not defined" means absent, null or blank; a boolean value fails the cast |
| ValidateRequest.FirstArgLookupCovers | src/main/java/cd/go/contrib/task/nuget/ValidateRequest.java:67-75 | every command with a package argument has a placeholder in the lookup table |
| ValidateRequest.ArgumentErrors | src/main/java/cd/go/contrib/task/nuget/ValidateRequest.java:77-97 | an argument has an error exactly when the command requires it and it is not defined |
| ValidateRequest.ArgumentErrorsOfOne | src/main/java/cd/go/contrib/task/nuget/ValidateRequest.java:77-79 | a command with one required argument records that argument's message exactly when it is undefined |
| ValidateRequest.ArgumentErrorsOfTwo | src/main/java/cd/go/contrib/task/nuget/ValidateRequest.java:81-93 | a command with two required arguments records each argument's message independently |
| ValidateRequest.Validation | src/main/java/cd/go/contrib/task/nuget/ValidateRequest.java:57-103 | fails with a NullPointerException exactly when the command is missing or null; a successful validation had a string command |
| ValidateRequest.Checked | src/main/java/cd/go/contrib/task/nuget/ValidateRequest.java:61-98 | fails exactly when an argument it reads holds a boolean; has a "command" error exactly when the command is blank; every other error is an argument the command requires that is undefined, with that argument's message, and every such argument has an error |
| ValidateRequest.CheckArgument | src/main/java/cd/go/contrib/task/nuget/ValidateRequest.java:77-79 | one check fails the cast on a boolean and otherwise records the message exactly when the property is undefined |
| ValidateRequest.NewFirstArgLookup | src/main/java/cd/go/contrib/task/nuget/ValidateRequest.java:68-75 | the table built in place is the placeholder table |
| ValidateRequest.CheckPackageArguments | src/main/java/cd/go/contrib/task/nuget/ValidateRequest.java:67-85 | the checks of the seven package commands give the specified errors |
| ValidateRequest.CheckInitArguments | src/main/java/cd/go/contrib/task/nuget/ValidateRequest.java:86-93 | the checks of init give the specified errors |
| ValidateRequest.CheckSourcesArguments | src/main/java/cd/go/contrib/task/nuget/ValidateRequest.java:94-97 | the check of sources gives the specified error |
| ValidateRequest.CheckArguments | src/main/java/cd/go/contrib/task/nuget/ValidateRequest.java:67-98 | the argument checks for the trimmed command give the specified errors, added to those already found |
| ValidateRequest.NothingRequired | src/main/java/cd/go/contrib/task/nuget/ValidateRequest.java:67-98 | a token that is not one of the seven package commands, init or sources requires no argument |
| ValidateRequest.Execute | src/main/java/cd/go/contrib/task/nuget/ValidateRequest.java:57-103 | the validator as it runs, filling the error map in place, agrees with Validation |
| ValidateRequest.ValidationChecks | src/main/java/cd/go/contrib/task/nuget/ValidateRequest.java:61-65 | once the command is a string, validation is the check of its trimmed text |
| ValidateRequest.ValidationFailure | src/main/java/cd/go/contrib/task/nuget/ValidateRequest.java:57-98 | validation fails exactly when the command is missing or not a string, or an argument the trimmed command requires holds a boolean; the error is a NullPointerException for a missing or null command and a ClassCastException otherwise |
| ValidateRequest.ErrorKeys | src/main/java/cd/go/contrib/task/nuget/ValidateRequest.java:57-98 | the error keys lie among command and the five checked arguments; every argument error is required and undefined |
| ValidateRequest.RequiredArgumentsKnown | src/main/java/cd/go/contrib/task/nuget/ValidateRequest.java:67-98 | the validator checks no property other than the five positional arguments |
| ValidateRequest.CommandError | src/main/java/cd/go/contrib/task/nuget/ValidateRequest.java:61-63 | a "command" error, with the fixed message, is recorded exactly when the command is blank |
| ValidateRequest.BlankCommand | src/main/java/cd/go/contrib/task/nuget/ValidateRequest.java:61-98 | a blank command gives exactly the command error |
| ValidateRequest.TrimmedCommand | src/main/java/cd/go/contrib/task/nuget/ValidateRequest.java:65 | two command texts that trim to the same text are validated the same way |
| ValidateRequest.CheckedIgnoresCommand | src/main/java/cd/go/contrib/task/nuget/ValidateRequest.java:67-98 | the argument checks do not read the command property |
| ValidateRequest.PaddedCommand | src/main/java/cd/go/contrib/task/nuget/ValidateRequest.java:65-67 | a command padded on either side with characters trim drops is validated as the command itself |
| ValidateRequest.PaddedInstall | src/main/java/cd/go/contrib/task/nuget/ValidateRequest.java:65-67 | " install " is validated as install |
| ValidateRequest.UncheckedCommands | src/main/java/cd/go/contrib/task/nuget/ValidateRequest.java:67-98 | config, setapikey and unknown commands get no argument errors |
| ValidateRequest.PackageArgumentError | src/main/java/cd/go/contrib/task/nuget/ValidateRequest.java:67-79 | the seven package commands record argPackageIdOrFilePath exactly when it is undefined, with a message naming the command and its placeholder |
| ValidateRequest.DeleteVersionError | src/main/java/cd/go/contrib/task/nuget/ValidateRequest.java:81-85 | delete records argPackageVersion exactly when it is undefined, with a message that names argPackageIdOrFilePath and <packageVersion> |
| ValidateRequest.InitArgumentErrors | src/main/java/cd/go/contrib/task/nuget/ValidateRequest.java:86-93 | init checks its source and its destination independently |
| ValidateRequest.SourcesArgumentError | src/main/java/cd/go/contrib/task/nuget/ValidateRequest.java:94-97 | sources records argOperation exactly when it is undefined |
| GetConfig.NewProperty | src/main/java/cd/go/contrib/task/nuget/GetConfigRequest.java:54-72 | default-value and display-name are present exactly when they are given and non-empty; the display order is the decimal string of the order, which reads back as that number; secure and required are as given |
| GetConfig.GetConfigRequest.constructor | src/main/java/cd/go/contrib/task/nuget/GetConfigRequest.java:28 | the counter starts at 0 |
| GetConfig.GetConfigRequest.AddConfigPropertyFull | src/main/java/cd/go/contrib/task/nuget/GetConfigRequest.java:54-72 | puts the property's attributes under its name and changes nothing else in the map |
| GetConfig.GetConfigRequest.AddConfigPropertyWithDefaultAt | src/main/java/cd/go/contrib/task/nuget/GetConfigRequest.java:50-52 | neither required nor secure, at the order given |
| GetConfig.GetConfigRequest.AddConfigPropertyAt | src/main/java/cd/go/contrib/task/nuget/GetConfigRequest.java:46-48 | no default value, not secure, at the order given |
| GetConfig.GetConfigRequest.AddConfigPropertySecure | src/main/java/cd/go/contrib/task/nuget/GetConfigRequest.java:42-44 | no default value, at the current counter, which then goes up by one |
| GetConfig.GetConfigRequest.AddConfigPropertyRequired | src/main/java/cd/go/contrib/task/nuget/GetConfigRequest.java:38-40 | no default value, not secure, at the current counter, which then goes up by one |
| GetConfig.GetConfigRequest.AddConfigPropertyWithDefault | src/main/java/cd/go/contrib/task/nuget/GetConfigRequest.java:34-36 | neither required nor secure, at the current counter, which then goes up by one |
| GetConfig.GetConfigRequest.AddConfigProperty | src/main/java/cd/go/contrib/task/nuget/GetConfigRequest.java:30-32 | not required, not secure, no default value, at the current counter, which then goes up by one |
| GetConfig.GetConfigRequest.Declare | src/main/java/cd/go/contrib/task/nuget/GetConfigRequest.java:30-44 | one declaration through the overload its flags choose: the map is extended by that declaration and the counter moves on by one |
| GetConfig.GetConfigRequest.DeclareCommandAndArguments | src/main/java/cd/go/contrib/task/nuget/GetConfigRequest.java:82-89 | the calls of these lines in order: the new map is the old one after these declarations, the counter advances by one per call, and no property already declared is dropped |
| GetConfig.GetConfigRequest.DeclareOptions1 | src/main/java/cd/go/contrib/task/nuget/GetConfigRequest.java:92-98 | the calls of these lines in order: the new map is the old one after these declarations, the counter advances by one per call, and no property already declared is dropped |
| GetConfig.GetConfigRequest.DeclareOptions2 | src/main/java/cd/go/contrib/task/nuget/GetConfigRequest.java:99-105 | the calls of these lines in order: the new map is the old one after these declarations, the counter advances by one per call, and no property already declared is dropped |
| GetConfig.GetConfigRequest.DeclareOptions3 | src/main/java/cd/go/contrib/task/nuget/GetConfigRequest.java:106-112 | the calls of these lines in order: the new map is the old one after these declarations, the counter advances by one per call, and no property already declared is dropped |
| GetConfig.GetConfigRequest.DeclareOptions4 | src/main/java/cd/go/contrib/task/nuget/GetConfigRequest.java:113-119 | the calls of these lines in order: the new map is the old one after these declarations, the counter advances by one per call, and no property already declared is dropped |
| GetConfig.GetConfigRequest.DeclareOptions5 | src/main/java/cd/go/contrib/task/nuget/GetConfigRequest.java:120-126 | the calls of these lines in order: the new map is the old one after these declarations, the counter advances by one per call, and no property already declared is dropped |
| GetConfig.GetConfigRequest.DeclareOptions6 | src/main/java/cd/go/contrib/task/nuget/GetConfigRequest.java:127-133 | the calls of these lines in order: the new map is the old one after these declarations, the counter advances by one per call, and no property already declared is dropped |
| GetConfig.GetConfigRequest.DeclareOptions7 | src/main/java/cd/go/contrib/task/nuget/GetConfigRequest.java:134-140 | the calls of these lines in order: the new map is the old one after these declarations, the counter advances by one per call, and no property already declared is dropped |
| GetConfig.GetConfigRequest.DeclareOptions8 | src/main/java/cd/go/contrib/task/nuget/GetConfigRequest.java:141-146 | the calls of these lines in order: the new map is the old one after these declarations, the counter advances by one per call, and no property already declared is dropped |
| GetConfig.GetConfigRequest.DeclareOptions9 | src/main/java/cd/go/contrib/task/nuget/GetConfigRequest.java:147-152 | the calls of these lines in order: the new map is the old one after these declarations, the counter advances by one per call, and no property already declared is dropped |
| GetConfig.GetConfigRequest.DeclareOptions10 | src/main/java/cd/go/contrib/task/nuget/GetConfigRequest.java:153-158 | the calls of these lines in order: the new map is the old one after these declarations, the counter advances by one per call, and no property already declared is dropped |
| GetConfig.GetConfigRequest.DeclareEnvironmentFlags1 | src/main/java/cd/go/contrib/task/nuget/GetConfigRequest.java:161-167 | the calls of these lines in order: the new map is the old one after these declarations, the counter advances by one per call, and no property already declared is dropped |
| GetConfig.GetConfigRequest.DeclareEnvironmentFlags2 | src/main/java/cd/go/contrib/task/nuget/GetConfigRequest.java:168-174 | the calls of these lines in order: the new map is the old one after these declarations, the counter advances by one per call, and no property already declared is dropped |
| GetConfig.GetConfigRequest.DeclareEnvironmentFlags3 | src/main/java/cd/go/contrib/task/nuget/GetConfigRequest.java:175-181 | the calls of these lines in order: the new map is the old one after these declarations, the counter advances by one per call, and no property already declared is dropped |
| GetConfig.GetConfigRequest.DeclareEnvironmentFlags4 | src/main/java/cd/go/contrib/task/nuget/GetConfigRequest.java:182-188 | the calls of these lines in order: the new map is the old one after these declarations, the counter advances by one per call, and no property already declared is dropped |
| GetConfig.GetConfigRequest.DeclareEnvironmentFlags5 | src/main/java/cd/go/contrib/task/nuget/GetConfigRequest.java:189-194 | the calls of these lines in order: the new map is the old one after these declarations, the counter advances by one per call, and no property already declared is dropped |
| GetConfig.CommandAndArgumentsConventional | src/main/java/cd/go/contrib/task/nuget/GetConfigRequest.java:82-89 | every declaration of these lines has a display name, is required only if it is the command, secure only if it is -ApiKey, -Password or -SymbolApiKey, and is none of argKey, argKeyFromEnv, optConfigFileFromEnv |
| GetConfig.Options1Conventional | src/main/java/cd/go/contrib/task/nuget/GetConfigRequest.java:92-98 | every declaration of these lines has a display name, is required only if it is the command, secure only if it is -ApiKey, -Password or -SymbolApiKey, and is none of argKey, argKeyFromEnv, optConfigFileFromEnv |
| GetConfig.Options2Conventional | src/main/java/cd/go/contrib/task/nuget/GetConfigRequest.java:99-105 | every declaration of these lines has a display name, is required only if it is the command, secure only if it is -ApiKey, -Password or -SymbolApiKey, and is none of argKey, argKeyFromEnv, optConfigFileFromEnv |
| GetConfig.Options3Conventional | src/main/java/cd/go/contrib/task/nuget/GetConfigRequest.java:106-112 | every declaration of these lines has a display name, is required only if it is the command, secure only if it is -ApiKey, -Password or -SymbolApiKey, and is none of argKey, argKeyFromEnv, optConfigFileFromEnv |
| GetConfig.Options4Conventional | src/main/java/cd/go/contrib/task/nuget/GetConfigRequest.java:113-119 | every declaration of these lines has a display name, is required only if it is the command, secure only if it is -ApiKey, -Password or -SymbolApiKey, and is none of argKey, argKeyFromEnv, optConfigFileFromEnv |
| GetConfig.Options5Conventional | src/main/java/cd/go/contrib/task/nuget/GetConfigRequest.java:120-126 | every declaration of these lines has a display name, is required only if it is the command, secure only if it is -ApiKey, -Password or -SymbolApiKey, and is none of argKey, argKeyFromEnv, optConfigFileFromEnv |
| GetConfig.Options6Conventional | src/main/java/cd/go/contrib/task/nuget/GetConfigRequest.java:127-133 | every declaration of these lines has a display name, is required only if it is the command, secure only if it is -ApiKey, -Password or -SymbolApiKey, and is none of argKey, argKeyFromEnv, optConfigFileFromEnv |
| GetConfig.Options7Conventional | src/main/java/cd/go/contrib/task/nuget/GetConfigRequest.java:134-140 | every declaration of these lines has a display name, is required only if it is the command, secure only if it is -ApiKey, -Password or -SymbolApiKey, and is none of argKey, argKeyFromEnv, optConfigFileFromEnv |
| GetConfig.Options8Conventional | src/main/java/cd/go/contrib/task/nuget/GetConfigRequest.java:141-146 | every declaration of these lines has a display name, is required only if it is the command, secure only if it is -ApiKey, -Password or -SymbolApiKey, and is none of argKey, argKeyFromEnv, optConfigFileFromEnv |
| GetConfig.Options9Conventional | src/main/java/cd/go/contrib/task/nuget/GetConfigRequest.java:147-152 | every declaration of these lines has a display name, is required only if it is the command, secure only if it is -ApiKey, -Password or -SymbolApiKey, and is none of argKey, argKeyFromEnv, optConfigFileFromEnv |
| GetConfig.Options10Conventional | src/main/java/cd/go/contrib/task/nuget/GetConfigRequest.java:153-158 | every declaration of these lines has a display name, is required only if it is the command, secure only if it is -ApiKey, -Password or -SymbolApiKey, and is none of argKey, argKeyFromEnv, optConfigFileFromEnv |
| GetConfig.EnvironmentFlags1Conventional | src/main/java/cd/go/contrib/task/nuget/GetConfigRequest.java:161-167 | every declaration of these lines has a display name, is required only if it is the command, secure only if it is -ApiKey, -Password or -SymbolApiKey, and is none of argKey, argKeyFromEnv, optConfigFileFromEnv |
| GetConfig.EnvironmentFlags2Conventional | src/main/java/cd/go/contrib/task/nuget/GetConfigRequest.java:168-174 | every declaration of these lines has a display name, is required only if it is the command, secure only if it is -ApiKey, -Password or -SymbolApiKey, and is none of argKey, argKeyFromEnv, optConfigFileFromEnv |
| GetConfig.EnvironmentFlags3Conventional | src/main/java/cd/go/contrib/task/nuget/GetConfigRequest.java:175-181 | every declaration of these lines has a display name, is required only if it is the command, secure only if it is -ApiKey, -Password or -SymbolApiKey, and is none of argKey, argKeyFromEnv, optConfigFileFromEnv |
| GetConfig.EnvironmentFlags4Conventional | src/main/java/cd/go/contrib/task/nuget/GetConfigRequest.java:182-188 | every declaration of these lines has a display name, is required only if it is the command, secure only if it is -ApiKey, -Password or -SymbolApiKey, and is none of argKey, argKeyFromEnv, optConfigFileFromEnv |
| GetConfig.EnvironmentFlags5Conventional | src/main/java/cd/go/contrib/task/nuget/GetConfigRequest.java:189-194 | every declaration of these lines has a display name, is required only if it is the command, secure only if it is -ApiKey, -Password or -SymbolApiKey, and is none of argKey, argKeyFromEnv, optConfigFileFromEnv |
| GetConfig.GetConfigRequest.DeclareArgumentsAndOptions | src/main/java/cd/go/contrib/task/nuget/GetConfigRequest.java:82-158 | the command, arguments and options, in order; command, optApiKey, optPassword and optSymbolApiKey are declared |
| GetConfig.GetConfigRequest.DeclareOptionsAToM | src/main/java/cd/go/contrib/task/nuget/GetConfigRequest.java:92-126 | the options from -AllowInsecureConnections to -MSBuildVersion, in order |
| GetConfig.GetConfigRequest.DeclareOptionsNToZ | src/main/java/cd/go/contrib/task/nuget/GetConfigRequest.java:127-158 | the options from -NoSymbols to -Version, in order |
| GetConfig.GetConfigRequest.DeclareEnvironmentFlags | src/main/java/cd/go/contrib/task/nuget/GetConfigRequest.java:161-194 | the FromEnv switches, in order |
| GetConfig.GetConfigRequest.Execute | src/main/java/cd/go/contrib/task/nuget/GetConfigRequest.java:78-198 | the map is the result of all 107 declarations from an empty map, starting at the counter's value; the counter advances by one per declaration; the command and the three secret properties are declared |
| GetConfig.GetConfiguration | src/main/java/cd/go/contrib/task/nuget/TaskPlugin.java:724-725 | a new request object, so the display orders count 0, 1, 2, … in declaration order; the map keeps the conventions below and declares the command and the secrets |
| GetConfig.ArgumentsAndOptionsConventional | src/main/java/cd/go/contrib/task/nuget/GetConfigRequest.java:82-158 | every declaration of the command, the arguments and the options keeps the conventions |
| GetConfig.OptionsAToMConventional | src/main/java/cd/go/contrib/task/nuget/GetConfigRequest.java:92-126 | the same, for the options from -AllowInsecureConnections to -MSBuildVersion |
| GetConfig.OptionsNToZConventional | src/main/java/cd/go/contrib/task/nuget/GetConfigRequest.java:127-158 | the same, for the options from -NoSymbols to -Version |
| GetConfig.EnvironmentFlagsConventional | src/main/java/cd/go/contrib/task/nuget/GetConfigRequest.java:161-194 | the same, for the FromEnv switches |
| GetConfig.DeclarationsConventional | src/main/java/cd/go/contrib/task/nuget/GetConfigRequest.java:82-194 | every declaration execute makes keeps the conventions: a display name; required only for command; secure only for optApiKey, optPassword and optSymbolApiKey; and never argKey, argKeyFromEnv or optConfigFileFromEnv |
| GetConfig.DeclaredConventional | src/main/java/cd/go/contrib/task/nuget/GetConfigRequest.java:54-72 | declarations that keep the conventions, made without a default value, give a map whose every entry has no default-value, has a display-name, is required exactly for command and secure exactly for the three secrets, and is none of the undeclared properties |
| GetConfig.DeclaredFacts | src/main/java/cd/go/contrib/task/nuget/GetConfigRequest.java:28-72 | from an empty map with the counter at 0, a property is in the map exactly when it was declared, and its display order is the decimal string of the position of its last declaration |
| GetConfig.DeclaredKeys | src/main/java/cd/go/contrib/task/nuget/GetConfigRequest.java:71 | a property is in the map exactly when it was in the map before or was declared |
| GetConfig.DeclaredValue | src/main/java/cd/go/contrib/task/nuget/GetConfigRequest.java:35-71 | a declared property holds what its last declaration put, at that declaration's turn of the counter |

## Left out

- Context.java is not part of this model. The task context appears only as its environment. The remaining environment lookups, by the whole value, are modelled as Map.get on that environment.
- JSON. Requests are decoded with Gson, and answers are encoded with it. The model starts from the decoded property map and ends at the map or the result that would be encoded.
- The process environment's checks are those of the JDK on Unix: a name holding '=' or NUL and a value holding NUL are refused, and a null value is refused. Windows refuses other names, which is not modelled. The context map's iteration order, which decides which refused variable is reported first, is the order of the modelled sequence.
- Running NuGet is not modelled: starting the process, console logging, reading its output, and the current thread's interrupt flag. The outcome of a run is a parameter.
- GetViewRequest, ExecuteRequest and the icon request are named by the request router but are not part of this model.
- EnvExpansion.ExpandEnvVars: `replaceAll` takes a regular expression built from the variable's name. The model replaces the literal text `${NAME}` instead. It also treats the replacement value literally; Java gives a '$' or '\\' in it special meaning. A name holding regular-expression characters, or a value holding '$' or '\\', is therefore not modelled as Java would treat it.
- EnvExpansion.ReferenceFromContext, EnvExpansion.ReferenceFromProcess, EnvExpansion.UnsetReference: proved for a text with one reference, whose surrounding text and value hold no '$', and for variable names without '$' or '}'. A text with several references, or a value that itself holds a reference, is covered by the definition of the expansion but not by a lemma.
- InstallOutputDirectoryExample: the test's request fixture (nuget-install-envvars.json) is not part of this model. The output-directory text with one reference to PackageVersion, and a context setting PackageVersion to 13.0.3, are assumptions; only the expected output comes from the test.
- TaskConfiguration.FromProperties: requires every text property to hold a string or null. The TaskConfig constructor throws ClassCastException when one holds a boolean, and that exception is not modelled there. The validator's own ClassCastException is modelled.
- GetConfig.GetConfigRequest: the counter is an unbounded integer. Java's int would wrap only after 2^31 declarations, which a request never reaches.
- GetConfig.DeclaredFacts: the display orders of different properties are proved to be the decimal strings of their positions. That these strings are pairwise different would need the 107 property names to be pairwise distinct, and that is not proved.
- CommandLineFacts.ConfigCommandOptions: the option list is spelled out option by option for config only. For every other command, OptionsFollowCommandSets gives it as the options that the command sets admit, in emission order, without listing them.
