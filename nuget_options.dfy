/**
 * The options of the NuGet command line as createNuGetProcessWithOptions
 * considers them (NuGetTaskExecutor.java:154-528): one record per option,
 * holding the option's name, from which both the configuration property
 * it reads ("opt" + name) and the flag it writes ("-" + name) follow, and
 * whether it is a switch or takes a value (and whether that value may be
 * expanded); and the order of the options, three unguarded ones followed
 * by seventeen blocks each guarded by a command set.
 */
module NuGetOptions {
  import opened TaskPlugin

  /** A switch writes its flag alone; a valued option writes its flag and then its value. */
  datatype Kind = Switch | Valued(expandable: bool)

  datatype OptionSpec = OptionSpec(name: string, kind: Kind)
  {
    /** The configuration property the option reads. */
    function Key(): string { "opt" + name }

    /** The flag the option writes. */
    function Flag(): string { "-" + name }
  }

  const ConfigFile := OptionSpec("ConfigFile", Valued(true))
  const ForceEnglishOutput := OptionSpec("ForceEnglishOutput", Switch)
  const Verbosity := OptionSpec("Verbosity", Valued(false))
  const Version := OptionSpec("Version", Valued(true))
  const Source := OptionSpec("Source", Valued(true))
  const OutputDirectory := OptionSpec("OutputDirectory", Valued(true))
  const SolutionDirectory := OptionSpec("SolutionDirectory", Valued(true))
  const ExcludeVersion := OptionSpec("ExcludeVersion", Switch)
  const Framework := OptionSpec("Framework", Valued(true))
  const BasePath := OptionSpec("BasePath", Valued(true))
  const Build := OptionSpec("Build", Switch)
  const Exclude := OptionSpec("Exclude", Valued(true))
  const ExcludeEmptyDirectories := OptionSpec("ExcludeEmptyDirectories", Switch)
  const IncludeReferencedProjects := OptionSpec("IncludeReferencedProjects", Switch)
  const InstallPackageToOutputPath := OptionSpec("InstallPackageToOutputPath", Switch)
  const MinClientVersion := OptionSpec("MinClientVersion", Valued(true))
  const NoDefaultExcludes := OptionSpec("NoDefaultExcludes", Switch)
  const NoPackageAnalysis := OptionSpec("NoPackageAnalysis", Switch)
  const OutputFileNamesWithoutVersion := OptionSpec("OutputFileNamesWithoutVersion", Switch)
  const Properties := OptionSpec("Properties", Valued(true))
  const Suffix := OptionSpec("Suffix", Valued(true))
  const SymbolPackageFormat := OptionSpec("SymbolPackageFormat", Valued(false))
  const Symbols := OptionSpec("Symbols", Switch)
  const Tool := OptionSpec("Tool", Switch)
  const DirectDownload := OptionSpec("DirectDownload", Switch)
  const DisableParallelProcessing := OptionSpec("DisableParallelProcessing", Switch)
  const NoHttpCache := OptionSpec("NoHttpCache", Switch)
  const FallbackSource := OptionSpec("FallbackSource", Valued(true))
  const PackageSaveMode := OptionSpec("PackageSaveMode", Valued(false))
  const RequireConsent := OptionSpec("RequireConsent", Switch)
  const DependencyVersion := OptionSpec("DependencyVersion", Valued(false))
  const PreRelease := OptionSpec("PreRelease", Switch)
  const MSBuildPath := OptionSpec("MSBuildPath", Valued(true))
  const MSBuildVersion := OptionSpec("MSBuildVersion", Valued(true))
  const PackagesDirectory := OptionSpec("PackagesDirectory", Valued(true))
  const ApiKey := OptionSpec("ApiKey", Valued(true))
  const NoServiceEndpoint := OptionSpec("NoServiceEndpoint", Switch)
  const DisableBuffering := OptionSpec("DisableBuffering", Switch)
  const NoSymbols := OptionSpec("NoSymbols", Switch)
  const SkipDuplicate := OptionSpec("SkipDuplicate", Switch)
  const SymbolSource := OptionSpec("SymbolSource", Valued(true))
  const SymbolApiKey := OptionSpec("SymbolApiKey", Valued(true))
  const Timeout := OptionSpec("Timeout", Valued(true))
  const Set := OptionSpec("Set", Valued(true))
  const AsPath := OptionSpec("AsPath", Valued(true))
  const Force := OptionSpec("Force", Switch)
  const ForceEvaluate := OptionSpec("ForceEvaluate", Switch)
  const LockFilePath := OptionSpec("LockFilePath", Valued(true))
  const LockedMode := OptionSpec("LockedMode", Switch)
  const Project2ProjectTimeOut := OptionSpec("Project2ProjectTimeOut", Valued(true))
  const Recursive := OptionSpec("Recursive", Switch)
  const UseLockFile := OptionSpec("UseLockFile", Switch)
  const Expand := OptionSpec("Expand", Switch)
  const NoPrompt := OptionSpec("NoPrompt", Switch)
  const AllowInsecureConnections := OptionSpec("AllowInsecureConnections", Switch)
  const Format := OptionSpec("Format", Valued(false))
  const Name := OptionSpec("Name", Valued(true))
  const ProtocolVersion := OptionSpec("ProtocolVersion", Valued(true))
  const Username := OptionSpec("Username", Valued(true))
  const Password := OptionSpec("Password", Valued(true))
  const StorePasswordInClearText := OptionSpec("StorePasswordInClearText", Switch)
  const ValidAuthenticationTypes := OptionSpec("ValidAuthenticationTypes", Valued(true))
  const Id := OptionSpec("Id", Valued(true))
  const RepositoryPath := OptionSpec("RepositoryPath", Valued(true))
  const Safe := OptionSpec("Safe", Switch)
  const FileConflictAction := OptionSpec("FileConflictAction", Valued(false))
  const Self := OptionSpec("Self", Switch)

  /**
   * The options in the order they are considered: one more option, or a
   * block of options considered only when the command is in its guard.
   */
  datatype Trail =
    | Start
    | Then(before: Trail, last: OptionSpec)
    | Guarded(before: Trail, guard: set<Command>, body: Trail)

  /** NuGetTaskExecutor.java:171-177: the options only install, pack and update take. */
  function InstallPackUpdateOptions(): Trail
  {
    var t := Start;
    var t := Then(t, Version);
    t
  }

  /** NuGetTaskExecutor.java:179-185: the options only install, push, restore, setapikey, add, delete, sources and update take. */
  function SourceOptions(): Trail
  {
    var t := Start;
    var t := Then(t, Source);
    t
  }

  /** NuGetTaskExecutor.java:187-199: the options only install, pack and restore take. */
  function InstallPackRestoreOptions(): Trail
  {
    var t := Start;
    var t := Then(t, OutputDirectory);
    var t := Then(t, SolutionDirectory);
    t
  }

  /** NuGetTaskExecutor.java:201-211: the options only install take. */
  function InstallOptions(): Trail
  {
    var t := Start;
    var t := Then(t, ExcludeVersion);
    var t := Then(t, Framework);
    t
  }

  /** NuGetTaskExecutor.java:213-285: the options only pack take. */
  function PackOptions(): Trail
  {
    var t := Start;
    var t := Then(t, BasePath);
    var t := Then(t, Build);
    var t := Then(t, Exclude);
    var t := Then(t, ExcludeEmptyDirectories);
    var t := Then(t, IncludeReferencedProjects);
    var t := Then(t, InstallPackageToOutputPath);
    var t := Then(t, MinClientVersion);
    var t := Then(t, NoDefaultExcludes);
    var t := Then(t, NoPackageAnalysis);
    var t := Then(t, OutputFileNamesWithoutVersion);
    var t := Then(t, Properties);
    var t := Then(t, Suffix);
    var t := Then(t, SymbolPackageFormat);
    var t := Then(t, Symbols);
    var t := Then(t, Tool);
    t
  }

  /** NuGetTaskExecutor.java:287-315: the options only install and restore take. */
  function InstallRestoreOptions(): Trail
  {
    var t := Start;
    var t := Then(t, DirectDownload);
    var t := Then(t, DisableParallelProcessing);
    var t := Then(t, NoHttpCache);
    var t := Then(t, FallbackSource);
    var t := Then(t, PackageSaveMode);
    var t := Then(t, RequireConsent);
    t
  }

  /** NuGetTaskExecutor.java:317-327: the options only install and update take. */
  function InstallUpdateOptions(): Trail
  {
    var t := Start;
    var t := Then(t, DependencyVersion);
    var t := Then(t, PreRelease);
    t
  }

  /** NuGetTaskExecutor.java:329-341: the options only pack, restore and update take. */
  function PackRestoreUpdateOptions(): Trail
  {
    var t := Start;
    var t := Then(t, MSBuildPath);
    var t := Then(t, MSBuildVersion);
    t
  }

  /** NuGetTaskExecutor.java:343-349: the options only pack and restore take. */
  function PackRestoreOptions(): Trail
  {
    var t := Start;
    var t := Then(t, PackagesDirectory);
    t
  }

  /** NuGetTaskExecutor.java:351-361: the options only push and delete take. */
  function PushDeleteOptions(): Trail
  {
    var t := Start;
    var t := Then(t, ApiKey);
    var t := Then(t, NoServiceEndpoint);
    t
  }

  /** NuGetTaskExecutor.java:363-393: the options only push take. */
  function PushOptions(): Trail
  {
    var t := Start;
    var t := Then(t, DisableBuffering);
    var t := Then(t, NoSymbols);
    var t := Then(t, SkipDuplicate);
    var t := Then(t, SymbolSource);
    var t := Then(t, SymbolApiKey);
    var t := Then(t, Timeout);
    t
  }

  /** NuGetTaskExecutor.java:395-407: the options only config take. */
  function ConfigOptions(): Trail
  {
    var t := Start;
    var t := Then(t, Set);
    var t := Then(t, AsPath);
    t
  }

  /** NuGetTaskExecutor.java:409-441: the options only restore take. */
  function RestoreOptions(): Trail
  {
    var t := Start;
    var t := Then(t, Force);
    var t := Then(t, ForceEvaluate);
    var t := Then(t, LockFilePath);
    var t := Then(t, LockedMode);
    var t := Then(t, Project2ProjectTimeOut);
    var t := Then(t, Recursive);
    var t := Then(t, UseLockFile);
    t
  }

  /** NuGetTaskExecutor.java:443-447: the options only add and init take. */
  function AddInitOptions(): Trail
  {
    var t := Start;
    var t := Then(t, Expand);
    t
  }

  /** NuGetTaskExecutor.java:449-453: the options only delete take. */
  function DeleteOptions(): Trail
  {
    var t := Start;
    var t := Then(t, NoPrompt);
    t
  }

  /** NuGetTaskExecutor.java:455-499: the options only sources take. */
  function SourcesOptions(): Trail
  {
    var t := Start;
    var t := Then(t, AllowInsecureConnections);
    var t := Then(t, Format);
    var t := Then(t, Name);
    var t := Then(t, ProtocolVersion);
    var t := Then(t, Username);
    var t := Then(t, Password);
    var t := Then(t, StorePasswordInClearText);
    var t := Then(t, ValidAuthenticationTypes);
    t
  }

  /** NuGetTaskExecutor.java:501-527: the options only update take. */
  function UpdateOptions(): Trail
  {
    var t := Start;
    var t := Then(t, Id);
    var t := Then(t, RepositoryPath);
    var t := Then(t, Safe);
    var t := Then(t, FileConflictAction);
    var t := Then(t, Self);
    t
  }

  /** The order in which the builder considers the options. */
  function EmissionOrder(): Trail
  {
    var t := Then(Start, ConfigFile);
    var t := Then(t, ForceEnglishOutput);
    var t := Then(t, Verbosity);
    var t := Guarded(t, InstallPackUpdate, InstallPackUpdateOptions());
    var t := Guarded(t, InstallPushRestoreSetApiKeyAddDeleteSourcesUpdate, SourceOptions());
    var t := Guarded(t, InstallPackRestore, InstallPackRestoreOptions());
    var t := Guarded(t, {Install}, InstallOptions());
    var t := Guarded(t, {Pack}, PackOptions());
    var t := Guarded(t, InstallRestore, InstallRestoreOptions());
    var t := Guarded(t, InstallUpdate, InstallUpdateOptions());
    var t := Guarded(t, PackRestoreUpdate, PackRestoreUpdateOptions());
    var t := Guarded(t, PackRestore, PackRestoreOptions());
    var t := Guarded(t, PushDelete, PushDeleteOptions());
    var t := Guarded(t, {Push}, PushOptions());
    var t := Guarded(t, {Config}, ConfigOptions());
    var t := Guarded(t, {Restore}, RestoreOptions());
    var t := Guarded(t, AddInit, AddInitOptions());
    var t := Guarded(t, {Delete}, DeleteOptions());
    var t := Guarded(t, {Sources}, SourcesOptions());
    var t := Guarded(t, {Update}, UpdateOptions());
    t
  }
}
