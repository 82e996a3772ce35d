/**
 * The plugin's tables: the NuGet command tokens, the command sets that gate
 * positional arguments and options, the names of the configuration
 * properties, and the routing of a request name to its handler.
 */
module TaskPlugin {
  import opened Wrappers

  /** The eleven commands the task can run (TaskPlugin.java:42-92). */
  datatype Command =
    | Install | Pack | Push | Config | Restore | SetApiKey
    | Add | Delete | Init | Sources | Update

  /** The token a command is written as on the command line. */
  function Token(c: Command): string
  {
    match c
    case Install => "install"
    case Pack => "pack"
    case Push => "push"
    case Config => "config"
    case Restore => "restore"
    case SetApiKey => "setapikey"
    case Add => "add"
    case Delete => "delete"
    case Init => "init"
    case Sources => "sources"
    case Update => "update"
  }

  /** The command a token stands for, if it is one of the eleven. */
  function Parse(s: string): (r: Option<Command>)
    ensures r.Some? ==> Token(r.value) == s
  {
    if s == "install" then Some(Install)
    else if s == "pack" then Some(Pack)
    else if s == "push" then Some(Push)
    else if s == "config" then Some(Config)
    else if s == "restore" then Some(Restore)
    else if s == "setapikey" then Some(SetApiKey)
    else if s == "add" then Some(Add)
    else if s == "delete" then Some(Delete)
    else if s == "init" then Some(Init)
    else if s == "sources" then Some(Sources)
    else if s == "update" then Some(Update)
    else None
  }

  /** Every command's token parses back to that command. */
  lemma ParseToken(c: Command)
    ensures Parse(Token(c)) == Some(c)
  {
  }

  /** The eleven tokens are pairwise distinct. */
  lemma TokensDistinct(c: Command, d: Command)
    ensures Token(c) == Token(d) <==> c == d
  {
    ParseToken(c);
    ParseToken(d);
  }

  // The command sets (TaskPlugin.java:97-147).
  const AddInit: set<Command> := {Add, Init}
  const InstallPackPushRestoreAddDeleteUpdate: set<Command> := {Install, Pack, Push, Restore, Add, Delete, Update}
  const InstallPackRestore: set<Command> := {Install, Pack, Restore}
  const InstallPackUpdate: set<Command> := {Install, Pack, Update}
  const InstallPushRestoreSetApiKeyAddDeleteSourcesUpdate: set<Command> :=
    {Install, Push, Restore, SetApiKey, Add, Delete, Sources, Update}
  const InstallRestore: set<Command> := {Install, Restore}
  const InstallUpdate: set<Command> := {Install, Update}
  const PackRestoreUpdate: set<Command> := {Pack, Restore, Update}
  const PackRestore: set<Command> := {Pack, Restore}
  const PushAdd: set<Command> := {Push, Add}
  const PushDelete: set<Command> := {Push, Delete}

  /** Set.of(...).contains(token) for a token that is not null. */
  predicate Contains(commands: set<Command>, token: string)
  {
    Parse(token).Some? && Parse(token).value in commands
  }

  /** A token is in a command set exactly when it is the token of one of its commands. */
  lemma ContainsToken(commands: set<Command>, token: string)
    ensures Contains(commands, token) <==> exists c :: c in commands && Token(c) == token
  {
    if exists c :: c in commands && Token(c) == token {
      var c :| c in commands && Token(c) == token;
      ParseToken(c);
    }
  }

  /**
   * The sets the positional arguments and the -Source option depend on:
   * the positional set is exactly the seven commands with a package
   * argument, and the -Source set holds setapikey and sources but not
   * pack, config or init.
   */
  lemma CommandSetFacts()
    ensures forall c :: c in InstallPackPushRestoreAddDeleteUpdate <==>
      c !in {Config, SetApiKey, Init, Sources}
    ensures SetApiKey in InstallPushRestoreSetApiKeyAddDeleteSourcesUpdate
    ensures Sources in InstallPushRestoreSetApiKeyAddDeleteSourcesUpdate
    ensures Pack !in InstallPushRestoreSetApiKeyAddDeleteSourcesUpdate
    ensures Config !in InstallPushRestoreSetApiKeyAddDeleteSourcesUpdate
    ensures Init !in InstallPushRestoreSetApiKeyAddDeleteSourcesUpdate
    ensures InstallRestore <= InstallPackRestore
    ensures PackRestore <= PackRestoreUpdate
  {
    forall c: Command
      ensures c in InstallPackPushRestoreAddDeleteUpdate <==> c !in {Config, SetApiKey, Init, Sources}
    {
      match c
      case Install =>
      case Pack =>
      case Push =>
      case Config =>
      case Restore =>
      case SetApiKey =>
      case Add =>
      case Delete =>
      case Init =>
      case Sources =>
      case Update =>
    }
  }

  /** The property that says whether a value goes through environment expansion. */
  function FromEnv(key: string): (r: string)
    ensures |r| == |key| + 7 && r[..|key|] == key && r[|key|..] == "FromEnv"
  {
    key + "FromEnv"
  }

  // Property names of the task configuration (TaskPlugin.java:152-517).
  const CommandProperty := "command"
  const ArgPackageIdOrFilePath := "argPackageIdOrFilePath"
  const ArgKey := "argKey"
  const ArgPackageVersion := "argPackageVersion"
  const ArgSource := "argSource"
  const ArgDestination := "argDestination"
  const ArgOperation := "argOperation"
  const OptAllowInsecureConnections := "optAllowInsecureConnections"
  const OptApiKey := "optApiKey"
  const OptAsPath := "optAsPath"
  const OptBasePath := "optBasePath"
  const OptBuild := "optBuild"
  const OptConfigFile := "optConfigFile"
  const OptDependencyVersion := "optDependencyVersion"
  const OptDirectDownload := "optDirectDownload"
  const OptDisableBuffering := "optDisableBuffering"
  const OptDisableParallelProcessing := "optDisableParallelProcessing"
  const OptExclude := "optExclude"
  const OptExcludeEmptyDirectories := "optExcludeEmptyDirectories"
  const OptExcludeVersion := "optExcludeVersion"
  const OptExpand := "optExpand"
  const OptFallbackSource := "optFallbackSource"
  const OptFileConflictAction := "optFileConflictAction"
  const OptForce := "optForce"
  const OptForceEnglishOutput := "optForceEnglishOutput"
  const OptForceEvaluate := "optForceEvaluate"
  const OptFormat := "optFormat"
  const OptFramework := "optFramework"
  const OptId := "optId"
  const OptIncludeReferencedProjects := "optIncludeReferencedProjects"
  const OptInstallPackageToOutputPath := "optInstallPackageToOutputPath"
  const OptLockFilePath := "optLockFilePath"
  const OptLockedMode := "optLockedMode"
  const OptMinClientVersion := "optMinClientVersion"
  const OptMSBuildPath := "optMSBuildPath"
  const OptMSBuildVersion := "optMSBuildVersion"
  const OptName := "optName"
  const OptNoDefaultExcludes := "optNoDefaultExcludes"
  const OptNoHttpCache := "optNoHttpCache"
  const OptNoPackageAnalysis := "optNoPackageAnalysis"
  const OptNoPrompt := "optNoPrompt"
  const OptNoServiceEndpoint := "optNoServiceEndpoint"
  const OptNoSymbols := "optNoSymbols"
  const OptOutputDirectory := "optOutputDirectory"
  const OptOutputFileNamesWithoutVersion := "optOutputFileNamesWithoutVersion"
  const OptPackageSaveMode := "optPackageSaveMode"
  const OptPackagesDirectory := "optPackagesDirectory"
  const OptPassword := "optPassword"
  const OptPreRelease := "optPreRelease"
  const OptProject2ProjectTimeOut := "optProject2ProjectTimeOut"
  const OptProperties := "optProperties"
  const OptProtocolVersion := "optProtocolVersion"
  const OptRecursive := "optRecursive"
  const OptRepositoryPath := "optRepositoryPath"
  const OptRequireConsent := "optRequireConsent"
  const OptSafe := "optSafe"
  const OptSelf := "optSelf"
  const OptSet := "optSet"
  const OptSkipDuplicate := "optSkipDuplicate"
  const OptSolutionDirectory := "optSolutionDirectory"
  const OptSource := "optSource"
  const OptStorePasswordInClearText := "optStorePasswordInClearText"
  const OptSuffix := "optSuffix"
  const OptSymbolApiKey := "optSymbolApiKey"
  const OptSymbolPackageFormat := "optSymbolPackageFormat"
  const OptSymbolSource := "optSymbolSource"
  const OptSymbols := "optSymbols"
  const OptTimeout := "optTimeout"
  const OptTool := "optTool"
  const OptUseLockFile := "optUseLockFile"
  const OptUsername := "optUsername"
  const OptValidAuthenticationTypes := "optValidAuthenticationTypes"
  const OptVerbosity := "optVerbosity"
  const OptVersion := "optVersion"

  /** The positional-argument properties. */
  const ArgumentKeys: set<string> := {
    ArgPackageIdOrFilePath, ArgKey, ArgPackageVersion,
    ArgSource, ArgDestination, ArgOperation
  }

  /** The options that carry a text value. */
  const TextOptionKeys: set<string> := {
    OptApiKey, OptAsPath, OptBasePath,
    OptConfigFile, OptDependencyVersion, OptExclude,
    OptFallbackSource, OptFileConflictAction, OptFormat,
    OptFramework, OptId, OptLockFilePath,
    OptMinClientVersion, OptMSBuildPath, OptMSBuildVersion,
    OptName, OptOutputDirectory, OptPackageSaveMode,
    OptPackagesDirectory, OptPassword, OptProject2ProjectTimeOut,
    OptProperties, OptProtocolVersion, OptRepositoryPath,
    OptSet, OptSolutionDirectory, OptSource,
    OptSuffix, OptSymbolApiKey, OptSymbolPackageFormat,
    OptSymbolSource, OptTimeout, OptUsername,
    OptValidAuthenticationTypes, OptVerbosity, OptVersion
  }

  /** The options that are switches. */
  const SwitchOptionKeys: set<string> := {
    OptAllowInsecureConnections, OptBuild, OptDirectDownload,
    OptDisableBuffering, OptDisableParallelProcessing, OptExcludeEmptyDirectories,
    OptExcludeVersion, OptExpand, OptForce,
    OptForceEnglishOutput, OptForceEvaluate, OptIncludeReferencedProjects,
    OptInstallPackageToOutputPath, OptLockedMode, OptNoDefaultExcludes,
    OptNoHttpCache, OptNoPackageAnalysis, OptNoPrompt,
    OptNoServiceEndpoint, OptNoSymbols, OptOutputFileNamesWithoutVersion,
    OptPreRelease, OptRecursive, OptRequireConsent,
    OptSafe, OptSelf, OptSkipDuplicate,
    OptStorePasswordInClearText, OptSymbols, OptTool,
    OptUseLockFile
  }

  /** The text options whose value is never passed through environment expansion. */
  const NeverExpandedKeys: set<string> := {
    OptDependencyVersion, OptFileConflictAction, OptFormat,
    OptPackageSaveMode, OptSymbolPackageFormat, OptVerbosity
  }

  /** The base properties that have a FromEnv companion. */
  const ExpandableKeys: set<string> := ArgumentKeys + (TextOptionKeys - NeverExpandedKeys)

  /** The FromEnv companions, all of them switches. */
  const FromEnvKeys: set<string> := set k | k in ExpandableKeys :: FromEnv(k)

  /** The handlers a request can be routed to (TaskPlugin.java:724-733). */
  datatype Handler =
    | GetConfigRequest
    | GetViewRequest
    | ValidateRequest
    | ExecuteRequest
    | GetPluginSettingsIconExecutor

  datatype PluginError = UnhandledRequestType(requestName: string)

  /** The request name a handler answers to. */
  function RequestName(h: Handler): string
  {
    match h
    case GetConfigRequest => "configuration"
    case GetViewRequest => "view"
    case ValidateRequest => "validate"
    case ExecuteRequest => "execute"
    case GetPluginSettingsIconExecutor => "go.cd.task.get-icon"
  }

  /**
   * TaskPlugin.handle: the handler whose request name matches, or the
   * UnhandledRequestTypeException carrying the name.
   */
  function Handle(requestName: string): (r: Result<Handler, PluginError>)
    ensures r.Success? ==> RequestName(r.value) == requestName
    ensures r.Failure? ==> r.error == UnhandledRequestType(requestName)
    ensures r.Failure? <==> forall h :: RequestName(h) != requestName
  {
    if requestName == "configuration" then Success(GetConfigRequest)
    else if requestName == "view" then Success(GetViewRequest)
    else if requestName == "validate" then Success(ValidateRequest)
    else if requestName == "execute" then Success(ExecuteRequest)
    else if requestName == "go.cd.task.get-icon" then Success(GetPluginSettingsIconExecutor)
    else Failure(UnhandledRequestType(requestName))
  }

  /** Each of the five request names reaches its own handler and no other. */
  lemma HandleRoutes(h: Handler)
    ensures Handle(RequestName(h)) == Success(h)
  {
  }
}
