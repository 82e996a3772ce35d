/**
 * GetConfigRequest: the declaration of the task's configuration properties
 * that GoCD shows in the pipeline editor. Each property is declared with
 * an optional default value, a display name, a display order, and whether
 * it is secure and required; the display order comes from a counter that
 * the object advances with every declaration that does not name its own.
 */
module GetConfig {
  import opened Wrappers
  import opened JavaStrings
  import TaskPlugin

  /** The attributes of one declared property, as put in its map. */
  datatype Property = Property(
    defaultValue: Option<string>,
    displayName: Option<string>,
    displayOrder: string,
    secure: bool,
    required: bool)

  /** A Java String that is non-null and non-empty. */
  predicate Present(s: Option<string>)
  {
    s.Some? && s.value != ""
  }

  /**
   * The property map of the seven-argument addConfigProperty
   * (GetConfigRequest.java:54-72): default-value and display-name only
   * when given and non-empty, the display order as a decimal string.
   */
  function NewProperty(displayName: Option<string>, defaultValue: Option<string>,
                       required: bool, secure: bool, displayOrder: int): (p: Property)
    ensures p.defaultValue.Some? <==> Present(defaultValue)
    ensures p.defaultValue.Some? ==> p.defaultValue == defaultValue
    ensures p.displayName.Some? <==> Present(displayName)
    ensures p.displayName.Some? ==> p.displayName == displayName
    ensures displayOrder >= 0 ==> p.displayOrder == NatToString(displayOrder) && DecimalValue(p.displayOrder) == displayOrder
    ensures p.secure == secure && p.required == required
  {
    var p := Property(
      if Present(defaultValue) then defaultValue else None,
      if Present(displayName) then displayName else None,
      IntToString(displayOrder), secure, required);
    if displayOrder >= 0 then DecimalRoundTrip(displayOrder); p else p
  }

  /** One call of execute: the property, its display name, and the required and secure flags it passes. */
  datatype Declaration = Declaration(property: string, displayName: string, required: bool, secure: bool)

  /** The property a declaration puts at a display order; execute passes no default value. */
  function PropertyOf(d: Declaration, displayOrder: int): Property
  {
    NewProperty(Some(d.displayName), None, d.required, d.secure, displayOrder)
  }

  /** The declarations made so far, the latest outermost. */
  datatype Trail = Start | Then(before: Trail, last: Declaration)

  /** The number of declarations on a trail. */
  function Count(t: Trail): nat
  {
    match t
    case Start => 0
    case Then(before, _) => Count(before) + 1
  }

  /** The declarations on a trail, in the order they were made. */
  function Made(t: Trail): (ds: seq<Declaration>)
    ensures |ds| == Count(t)
  {
    match t
    case Start => []
    case Then(before, d) => Made(before) + [d]
  }

  /**
   * The map after the declarations of t, made in order from the map base
   * with the counter at start: each declaration takes the next display
   * order and replaces what its property held.
   */
  function Declared(t: Trail, base: map<string, Property>, start: int): map<string, Property>
  {
    match t
    case Start => base
    case Then(before, d) => Declared(before, base, start)[d.property := PropertyOf(d, start + Count(before))]
  }

  /** The declarations of the command and the positional arguments of GetConfigRequest.java:82-89. */
  function CommandAndArguments(before: Trail): Trail
  {
    Then(Then(Then(Then(Then(Then(before,
      Declaration(TaskPlugin.CommandProperty, "Command", true, false)),
      Declaration(TaskPlugin.ArgPackageIdOrFilePath, "<Package ID> or <File Path>", false, false)),
      Declaration(TaskPlugin.ArgPackageVersion, "<Package Version>", false, false)),
      Declaration(TaskPlugin.ArgSource, "<Source>", false, false)),
      Declaration(TaskPlugin.ArgDestination, "<Destination>", false, false)),
      Declaration(TaskPlugin.ArgOperation, "<Operation>", false, false))
  }

  /** The declarations of options of GetConfigRequest.java:92-98. */
  function Options1(before: Trail): Trail
  {
    Then(Then(Then(Then(Then(Then(Then(before,
      Declaration(TaskPlugin.OptAllowInsecureConnections, "-AllowInsecureConnections", false, false)),
      Declaration(TaskPlugin.OptApiKey, "-ApiKey", false, true)),
      Declaration(TaskPlugin.OptAsPath, "-AsPath", false, false)),
      Declaration(TaskPlugin.OptBasePath, "-BasePath", false, false)),
      Declaration(TaskPlugin.OptBuild, "-Build", false, false)),
      Declaration(TaskPlugin.OptConfigFile, "-ConfigFile", false, false)),
      Declaration(TaskPlugin.OptDependencyVersion, "-DependencyVersion", false, false))
  }

  /** The declarations of options of GetConfigRequest.java:99-105. */
  function Options2(before: Trail): Trail
  {
    Then(Then(Then(Then(Then(Then(Then(before,
      Declaration(TaskPlugin.OptDirectDownload, "-DirectDownload", false, false)),
      Declaration(TaskPlugin.OptDisableBuffering, "-DisableBuffering", false, false)),
      Declaration(TaskPlugin.OptDisableParallelProcessing, "-DisableParallelProcessing", false, false)),
      Declaration(TaskPlugin.OptExclude, "-Exclude", false, false)),
      Declaration(TaskPlugin.OptExcludeEmptyDirectories, "-ExcludeEmptyDirectories", false, false)),
      Declaration(TaskPlugin.OptExcludeVersion, "-ExcludeVersion", false, false)),
      Declaration(TaskPlugin.OptExpand, "-Expand", false, false))
  }

  /** The declarations of options of GetConfigRequest.java:106-112. */
  function Options3(before: Trail): Trail
  {
    Then(Then(Then(Then(Then(Then(Then(before,
      Declaration(TaskPlugin.OptFallbackSource, "-FallbackSource", false, false)),
      Declaration(TaskPlugin.OptFileConflictAction, "-FileConflictAction", false, false)),
      Declaration(TaskPlugin.OptForceEnglishOutput, "-ForceEnglishOutput", false, false)),
      Declaration(TaskPlugin.OptForceEvaluate, "-ForceEvaluate", false, false)),
      Declaration(TaskPlugin.OptForce, "-Force", false, false)),
      Declaration(TaskPlugin.OptFormat, "-Format", false, false)),
      Declaration(TaskPlugin.OptFramework, "-Framework", false, false))
  }

  /** The declarations of options of GetConfigRequest.java:113-119. */
  function Options4(before: Trail): Trail
  {
    Then(Then(Then(Then(Then(Then(Then(before,
      Declaration(TaskPlugin.OptId, "-Id", false, false)),
      Declaration(TaskPlugin.OptIncludeReferencedProjects, "-IncludeReferencedProjects", false, false)),
      Declaration(TaskPlugin.OptInstallPackageToOutputPath, "-InstallPackageToOutputPath", false, false)),
      Declaration(TaskPlugin.OptLockFilePath, "-LockFilePath", false, false)),
      Declaration(TaskPlugin.OptLockedMode, "-LockedMode", false, false)),
      Declaration(TaskPlugin.OptMinClientVersion, "-MinClientVersion", false, false)),
      Declaration(TaskPlugin.OptMSBuildPath, "-MsBuildPath", false, false))
  }

  /** The declarations of options of GetConfigRequest.java:120-126. */
  function Options5(before: Trail): Trail
  {
    Then(Then(Then(Then(Then(Then(Then(before,
      Declaration(TaskPlugin.OptMSBuildVersion, "-MsBuildVersion", false, false)),
      Declaration(TaskPlugin.OptName, "-Name", false, false)),
      Declaration(TaskPlugin.OptNoDefaultExcludes, "-NoDefaultExcludes", false, false)),
      Declaration(TaskPlugin.OptNoHttpCache, "-NoHttpCache", false, false)),
      Declaration(TaskPlugin.OptNoPackageAnalysis, "-NoPackageAnalysis", false, false)),
      Declaration(TaskPlugin.OptNoPrompt, "-NoPrompt", false, false)),
      Declaration(TaskPlugin.OptNoServiceEndpoint, "-NoServiceEndpoint", false, false))
  }

  /** The declarations of options of GetConfigRequest.java:127-133. */
  function Options6(before: Trail): Trail
  {
    Then(Then(Then(Then(Then(Then(Then(before,
      Declaration(TaskPlugin.OptNoSymbols, "-NoSymbols", false, false)),
      Declaration(TaskPlugin.OptOutputDirectory, "-OutputDirectory", false, false)),
      Declaration(TaskPlugin.OptOutputFileNamesWithoutVersion, "-OutputFileNamesWithoutVersion", false, false)),
      Declaration(TaskPlugin.OptPackageSaveMode, "-PackageSaveMode", false, false)),
      Declaration(TaskPlugin.OptPackagesDirectory, "-PackagesDirectory", false, false)),
      Declaration(TaskPlugin.OptPassword, "-Password", false, true)),
      Declaration(TaskPlugin.OptPreRelease, "-PreRelease", false, false))
  }

  /** The declarations of options of GetConfigRequest.java:134-140. */
  function Options7(before: Trail): Trail
  {
    Then(Then(Then(Then(Then(Then(Then(before,
      Declaration(TaskPlugin.OptProject2ProjectTimeOut, "-Project2ProjectTimeOut", false, false)),
      Declaration(TaskPlugin.OptProperties, "-Properties", false, false)),
      Declaration(TaskPlugin.OptProtocolVersion, "-ProtocolVersion", false, false)),
      Declaration(TaskPlugin.OptRecursive, "-Recursive", false, false)),
      Declaration(TaskPlugin.OptRepositoryPath, "-RepositoryPath", false, false)),
      Declaration(TaskPlugin.OptRequireConsent, "-RequireConsent", false, false)),
      Declaration(TaskPlugin.OptSafe, "-Safe", false, false))
  }

  /** The declarations of options of GetConfigRequest.java:141-146. */
  function Options8(before: Trail): Trail
  {
    Then(Then(Then(Then(Then(Then(before,
      Declaration(TaskPlugin.OptSelf, "-Self", false, false)),
      Declaration(TaskPlugin.OptSet, "-Set", false, false)),
      Declaration(TaskPlugin.OptSkipDuplicate, "-SkipDuplicate", false, false)),
      Declaration(TaskPlugin.OptSolutionDirectory, "-SolutionDirectory", false, false)),
      Declaration(TaskPlugin.OptSource, "-Source", false, false)),
      Declaration(TaskPlugin.OptStorePasswordInClearText, "-StorePasswordInClearText", false, false))
  }

  /** The declarations of options of GetConfigRequest.java:147-152. */
  function Options9(before: Trail): Trail
  {
    Then(Then(Then(Then(Then(Then(before,
      Declaration(TaskPlugin.OptSuffix, "-Suffix", false, false)),
      Declaration(TaskPlugin.OptSymbolApiKey, "-SymbolApiKey", false, true)),
      Declaration(TaskPlugin.OptSymbolPackageFormat, "-SymbolPackageFormat", false, false)),
      Declaration(TaskPlugin.OptSymbolSource, "-SymbolSource", false, false)),
      Declaration(TaskPlugin.OptSymbols, "-Symbols", false, false)),
      Declaration(TaskPlugin.OptTimeout, "-Timeout", false, false))
  }

  /** The declarations of options of GetConfigRequest.java:153-158. */
  function Options10(before: Trail): Trail
  {
    Then(Then(Then(Then(Then(Then(before,
      Declaration(TaskPlugin.OptTool, "-Tool", false, false)),
      Declaration(TaskPlugin.OptUseLockFile, "-UseLockFile", false, false)),
      Declaration(TaskPlugin.OptUsername, "-Username", false, false)),
      Declaration(TaskPlugin.OptValidAuthenticationTypes, "-ValidAuthenticationTypes", false, false)),
      Declaration(TaskPlugin.OptVerbosity, "-Verbosity", false, false)),
      Declaration(TaskPlugin.OptVersion, "-Version", false, false))
  }

  /** The declarations of environment-expansion switches of GetConfigRequest.java:161-167. */
  function EnvironmentFlags1(before: Trail): Trail
  {
    Then(Then(Then(Then(Then(Then(Then(before,
      Declaration("argPackageIdOrFilePathFromEnv", "argPackageIdOrFilePath Is Env Var?", false, false)),
      Declaration("argPackageVersionFromEnv", "argPackageVersion Is Env Var?", false, false)),
      Declaration("argSourceFromEnv", "argSource Is Env Var?", false, false)),
      Declaration("argDestinationFromEnv", "argDestination Is Env Var?", false, false)),
      Declaration("argOperationFromEnv", "argOperation Is Env Var?", false, false)),
      Declaration("optVersionFromEnv", "optVersion Is Env Var?", false, false)),
      Declaration("optSourceFromEnv", "optSource Is Env Var?", false, false))
  }

  /** The declarations of environment-expansion switches of GetConfigRequest.java:168-174. */
  function EnvironmentFlags2(before: Trail): Trail
  {
    Then(Then(Then(Then(Then(Then(Then(before,
      Declaration("optOutputDirectoryFromEnv", "optOutputDirectory Is Env Var?", false, false)),
      Declaration("optSolutionDirectoryFromEnv", "optSolutionDirectory Is Env Var?", false, false)),
      Declaration("optFrameworkFromEnv", "optFramework Is Env Var?", false, false)),
      Declaration("optBasePathFromEnv", "optBasePath Is Env Var?", false, false)),
      Declaration("optExcludeFromEnv", "optExclude Is Env Var?", false, false)),
      Declaration("optMinClientVersionFromEnv", "optMinClientVersion Is Env Var?", false, false)),
      Declaration("optPropertiesFromEnv", "optProperties Is Env Var?", false, false))
  }

  /** The declarations of environment-expansion switches of GetConfigRequest.java:175-181. */
  function EnvironmentFlags3(before: Trail): Trail
  {
    Then(Then(Then(Then(Then(Then(Then(before,
      Declaration("optSuffixFromEnv", "optSuffix Is Env Var?", false, false)),
      Declaration("optFallbackSourceFromEnv", "optFallbackSource Is Env Var?", false, false)),
      Declaration("optMSBuildPathFromEnv", "optMSBuildPath Is Env Var?", false, false)),
      Declaration("optMSBuildVersionFromEnv", "optMSBuildVersion Is Env Var?", false, false)),
      Declaration("optPackagesDirectoryFromEnv", "optPackagesDirectory Is Env Var?", false, false)),
      Declaration("optApiKeyFromEnv", "optApiKey Is Env Var?", false, false)),
      Declaration("optSymbolSourceFromEnv", "optSymbolSource Is Env Var?", false, false))
  }

  /** The declarations of environment-expansion switches of GetConfigRequest.java:182-188. */
  function EnvironmentFlags4(before: Trail): Trail
  {
    Then(Then(Then(Then(Then(Then(Then(before,
      Declaration("optSymbolApiKeyFromEnv", "optSymbolApiKey Is Env Var?", false, false)),
      Declaration("optTimeoutFromEnv", "optTimeout Is Env Var?", false, false)),
      Declaration("optSetFromEnv", "optSet Is Env Var?", false, false)),
      Declaration("optAsPathFromEnv", "optAsPath Is Env Var?", false, false)),
      Declaration("optLockFilePathFromEnv", "optLockFilePath Is Env Var?", false, false)),
      Declaration("optProject2ProjectTimeOutFromEnv", "optProject2ProjectTimeOut Is Env Var?", false, false)),
      Declaration("optNameFromEnv", "optName Is Env Var?", false, false))
  }

  /** The declarations of environment-expansion switches of GetConfigRequest.java:189-194. */
  function EnvironmentFlags5(before: Trail): Trail
  {
    Then(Then(Then(Then(Then(Then(before,
      Declaration("optProtocolVersionFromEnv", "optProtocolVersion Is Env Var?", false, false)),
      Declaration("optUsernameFromEnv", "optUsername Is Env Var?", false, false)),
      Declaration("optPasswordFromEnv", "optPassword Is Env Var?", false, false)),
      Declaration("optValidAuthenticationTypesFromEnv", "optValidAuthenticationTypes Is Env Var?", false, false)),
      Declaration("optIdFromEnv", "optId Is Env Var?", false, false)),
      Declaration("optRepositoryPathFromEnv", "optRepositoryPath Is Env Var?", false, false))
  }


  /** The declarations execute makes, in order (GetConfigRequest.java:82-194). */
  function Declarations(): Trail
  {
    EnvironmentFlags(ArgumentsAndOptions(Start))
  }

  /** The declarations of the command, the positional arguments and the options (GetConfigRequest.java:82-158). */
  function ArgumentsAndOptions(before: Trail): Trail
  {
    OptionsNToZ(OptionsAToM(CommandAndArguments(before)))
  }

  /** The declarations of the options from -AllowInsecureConnections to -MSBuildVersion (GetConfigRequest.java:92-126). */
  function OptionsAToM(before: Trail): Trail
  {
    Options5(Options4(Options3(Options2(Options1(before)))))
  }

  /** The declarations of the options from -NoSymbols to -Version (GetConfigRequest.java:127-158). */
  function OptionsNToZ(before: Trail): Trail
  {
    Options10(Options9(Options8(Options7(Options6(before)))))
  }

  /** The declarations of the environment-expansion switches (GetConfigRequest.java:161-194). */
  function EnvironmentFlags(before: Trail): Trail
  {
    EnvironmentFlags5(EnvironmentFlags4(EnvironmentFlags3(EnvironmentFlags2(EnvironmentFlags1(before)))))
  }

  /** The properties whose values the editor masks. */
  const SecureProperties: set<string> := {TaskPlugin.OptApiKey, TaskPlugin.OptPassword, TaskPlugin.OptSymbolApiKey}

  /**
   * Properties the executor reads that execute does not declare: the API
   * key argument and the switches FromEnv(argKey) and FromEnv(optConfigFile).
   */
  const UndeclaredProperties: set<string> :=
    {TaskPlugin.ArgKey, "argKeyFromEnv", "optConfigFileFromEnv"}

  /**
   * What execute keeps to in each declaration: a display name, required
   * only for the command, secure only for the secure properties, and none
   * of the undeclared properties.
   */
  predicate Conventional(d: Declaration)
  {
    d.displayName != "" &&
    (d.required <==> d.property == TaskPlugin.CommandProperty) &&
    (d.secure <==> d.property in SecureProperties) &&
    d.property !in UndeclaredProperties
  }

  /**
   * What the configuration execute returns keeps to: no default values,
   * a display name everywhere, required only for the command, secure only
   * for the secure properties, and none of the undeclared properties.
   */
  predicate ConventionalConfiguration(config: map<string, Property>)
  {
    forall k :: k in config ==>
      config[k].defaultValue.None? && config[k].displayName.Some? &&
      (config[k].required <==> k == TaskPlugin.CommandProperty) &&
      (config[k].secure <==> k in SecureProperties) &&
      k !in UndeclaredProperties
  }

  /** Every declaration on the trail keeps to the conventions. */
  predicate AllConventional(t: Trail)
  {
    forall d :: d in Made(t) ==> Conventional(d)
  }

  /** The declarations of CommandAndArguments keep to the conventions. */
  lemma CommandAndArgumentsConventional(before: Trail)
    requires AllConventional(before)
    ensures AllConventional(CommandAndArguments(before))
  {
    var t0 := before;
    var t1 := Then(t0, Declaration(TaskPlugin.CommandProperty, "Command", true, false));
    ThenConventional(t0, t1.last);
    var t2 := Then(t1, Declaration(TaskPlugin.ArgPackageIdOrFilePath, "<Package ID> or <File Path>", false, false));
    ThenConventional(t1, t2.last);
    var t3 := Then(t2, Declaration(TaskPlugin.ArgPackageVersion, "<Package Version>", false, false));
    ThenConventional(t2, t3.last);
    var t4 := Then(t3, Declaration(TaskPlugin.ArgSource, "<Source>", false, false));
    ThenConventional(t3, t4.last);
    var t5 := Then(t4, Declaration(TaskPlugin.ArgDestination, "<Destination>", false, false));
    ThenConventional(t4, t5.last);
    var t6 := Then(t5, Declaration(TaskPlugin.ArgOperation, "<Operation>", false, false));
    ThenConventional(t5, t6.last);
  }

  /** The declarations of Options1 keep to the conventions. */
  lemma Options1Conventional(before: Trail)
    requires AllConventional(before)
    ensures AllConventional(Options1(before))
  {
    var t0 := before;
    var t1 := Then(t0, Declaration(TaskPlugin.OptAllowInsecureConnections, "-AllowInsecureConnections", false, false));
    ThenConventional(t0, t1.last);
    var t2 := Then(t1, Declaration(TaskPlugin.OptApiKey, "-ApiKey", false, true));
    ThenConventional(t1, t2.last);
    var t3 := Then(t2, Declaration(TaskPlugin.OptAsPath, "-AsPath", false, false));
    ThenConventional(t2, t3.last);
    var t4 := Then(t3, Declaration(TaskPlugin.OptBasePath, "-BasePath", false, false));
    ThenConventional(t3, t4.last);
    var t5 := Then(t4, Declaration(TaskPlugin.OptBuild, "-Build", false, false));
    ThenConventional(t4, t5.last);
    var t6 := Then(t5, Declaration(TaskPlugin.OptConfigFile, "-ConfigFile", false, false));
    ThenConventional(t5, t6.last);
    var t7 := Then(t6, Declaration(TaskPlugin.OptDependencyVersion, "-DependencyVersion", false, false));
    ThenConventional(t6, t7.last);
  }

  /** The declarations of Options2 keep to the conventions. */
  lemma Options2Conventional(before: Trail)
    requires AllConventional(before)
    ensures AllConventional(Options2(before))
  {
    var t0 := before;
    var t1 := Then(t0, Declaration(TaskPlugin.OptDirectDownload, "-DirectDownload", false, false));
    ThenConventional(t0, t1.last);
    var t2 := Then(t1, Declaration(TaskPlugin.OptDisableBuffering, "-DisableBuffering", false, false));
    ThenConventional(t1, t2.last);
    var t3 := Then(t2, Declaration(TaskPlugin.OptDisableParallelProcessing, "-DisableParallelProcessing", false, false));
    ThenConventional(t2, t3.last);
    var t4 := Then(t3, Declaration(TaskPlugin.OptExclude, "-Exclude", false, false));
    ThenConventional(t3, t4.last);
    var t5 := Then(t4, Declaration(TaskPlugin.OptExcludeEmptyDirectories, "-ExcludeEmptyDirectories", false, false));
    ThenConventional(t4, t5.last);
    var t6 := Then(t5, Declaration(TaskPlugin.OptExcludeVersion, "-ExcludeVersion", false, false));
    ThenConventional(t5, t6.last);
    var t7 := Then(t6, Declaration(TaskPlugin.OptExpand, "-Expand", false, false));
    ThenConventional(t6, t7.last);
  }

  /** The declarations of Options3 keep to the conventions. */
  lemma Options3Conventional(before: Trail)
    requires AllConventional(before)
    ensures AllConventional(Options3(before))
  {
    var t0 := before;
    var t1 := Then(t0, Declaration(TaskPlugin.OptFallbackSource, "-FallbackSource", false, false));
    ThenConventional(t0, t1.last);
    var t2 := Then(t1, Declaration(TaskPlugin.OptFileConflictAction, "-FileConflictAction", false, false));
    ThenConventional(t1, t2.last);
    var t3 := Then(t2, Declaration(TaskPlugin.OptForceEnglishOutput, "-ForceEnglishOutput", false, false));
    ThenConventional(t2, t3.last);
    var t4 := Then(t3, Declaration(TaskPlugin.OptForceEvaluate, "-ForceEvaluate", false, false));
    ThenConventional(t3, t4.last);
    var t5 := Then(t4, Declaration(TaskPlugin.OptForce, "-Force", false, false));
    ThenConventional(t4, t5.last);
    var t6 := Then(t5, Declaration(TaskPlugin.OptFormat, "-Format", false, false));
    ThenConventional(t5, t6.last);
    var t7 := Then(t6, Declaration(TaskPlugin.OptFramework, "-Framework", false, false));
    ThenConventional(t6, t7.last);
  }

  /** The declarations of Options4 keep to the conventions. */
  lemma Options4Conventional(before: Trail)
    requires AllConventional(before)
    ensures AllConventional(Options4(before))
  {
    var t0 := before;
    var t1 := Then(t0, Declaration(TaskPlugin.OptId, "-Id", false, false));
    ThenConventional(t0, t1.last);
    var t2 := Then(t1, Declaration(TaskPlugin.OptIncludeReferencedProjects, "-IncludeReferencedProjects", false, false));
    ThenConventional(t1, t2.last);
    var t3 := Then(t2, Declaration(TaskPlugin.OptInstallPackageToOutputPath, "-InstallPackageToOutputPath", false, false));
    ThenConventional(t2, t3.last);
    var t4 := Then(t3, Declaration(TaskPlugin.OptLockFilePath, "-LockFilePath", false, false));
    ThenConventional(t3, t4.last);
    var t5 := Then(t4, Declaration(TaskPlugin.OptLockedMode, "-LockedMode", false, false));
    ThenConventional(t4, t5.last);
    var t6 := Then(t5, Declaration(TaskPlugin.OptMinClientVersion, "-MinClientVersion", false, false));
    ThenConventional(t5, t6.last);
    var t7 := Then(t6, Declaration(TaskPlugin.OptMSBuildPath, "-MsBuildPath", false, false));
    ThenConventional(t6, t7.last);
  }

  /** The declarations of Options5 keep to the conventions. */
  lemma Options5Conventional(before: Trail)
    requires AllConventional(before)
    ensures AllConventional(Options5(before))
  {
    var t0 := before;
    var t1 := Then(t0, Declaration(TaskPlugin.OptMSBuildVersion, "-MsBuildVersion", false, false));
    ThenConventional(t0, t1.last);
    var t2 := Then(t1, Declaration(TaskPlugin.OptName, "-Name", false, false));
    ThenConventional(t1, t2.last);
    var t3 := Then(t2, Declaration(TaskPlugin.OptNoDefaultExcludes, "-NoDefaultExcludes", false, false));
    ThenConventional(t2, t3.last);
    var t4 := Then(t3, Declaration(TaskPlugin.OptNoHttpCache, "-NoHttpCache", false, false));
    ThenConventional(t3, t4.last);
    var t5 := Then(t4, Declaration(TaskPlugin.OptNoPackageAnalysis, "-NoPackageAnalysis", false, false));
    ThenConventional(t4, t5.last);
    var t6 := Then(t5, Declaration(TaskPlugin.OptNoPrompt, "-NoPrompt", false, false));
    ThenConventional(t5, t6.last);
    var t7 := Then(t6, Declaration(TaskPlugin.OptNoServiceEndpoint, "-NoServiceEndpoint", false, false));
    ThenConventional(t6, t7.last);
  }

  /** The declarations of Options6 keep to the conventions. */
  lemma Options6Conventional(before: Trail)
    requires AllConventional(before)
    ensures AllConventional(Options6(before))
  {
    var t0 := before;
    var t1 := Then(t0, Declaration(TaskPlugin.OptNoSymbols, "-NoSymbols", false, false));
    ThenConventional(t0, t1.last);
    var t2 := Then(t1, Declaration(TaskPlugin.OptOutputDirectory, "-OutputDirectory", false, false));
    ThenConventional(t1, t2.last);
    var t3 := Then(t2, Declaration(TaskPlugin.OptOutputFileNamesWithoutVersion, "-OutputFileNamesWithoutVersion", false, false));
    ThenConventional(t2, t3.last);
    var t4 := Then(t3, Declaration(TaskPlugin.OptPackageSaveMode, "-PackageSaveMode", false, false));
    ThenConventional(t3, t4.last);
    var t5 := Then(t4, Declaration(TaskPlugin.OptPackagesDirectory, "-PackagesDirectory", false, false));
    ThenConventional(t4, t5.last);
    var t6 := Then(t5, Declaration(TaskPlugin.OptPassword, "-Password", false, true));
    ThenConventional(t5, t6.last);
    var t7 := Then(t6, Declaration(TaskPlugin.OptPreRelease, "-PreRelease", false, false));
    ThenConventional(t6, t7.last);
  }

  /** The declarations of Options7 keep to the conventions. */
  lemma Options7Conventional(before: Trail)
    requires AllConventional(before)
    ensures AllConventional(Options7(before))
  {
    var t0 := before;
    var t1 := Then(t0, Declaration(TaskPlugin.OptProject2ProjectTimeOut, "-Project2ProjectTimeOut", false, false));
    ThenConventional(t0, t1.last);
    var t2 := Then(t1, Declaration(TaskPlugin.OptProperties, "-Properties", false, false));
    ThenConventional(t1, t2.last);
    var t3 := Then(t2, Declaration(TaskPlugin.OptProtocolVersion, "-ProtocolVersion", false, false));
    ThenConventional(t2, t3.last);
    var t4 := Then(t3, Declaration(TaskPlugin.OptRecursive, "-Recursive", false, false));
    ThenConventional(t3, t4.last);
    var t5 := Then(t4, Declaration(TaskPlugin.OptRepositoryPath, "-RepositoryPath", false, false));
    ThenConventional(t4, t5.last);
    var t6 := Then(t5, Declaration(TaskPlugin.OptRequireConsent, "-RequireConsent", false, false));
    ThenConventional(t5, t6.last);
    var t7 := Then(t6, Declaration(TaskPlugin.OptSafe, "-Safe", false, false));
    ThenConventional(t6, t7.last);
  }

  /** The declarations of Options8 keep to the conventions. */
  lemma Options8Conventional(before: Trail)
    requires AllConventional(before)
    ensures AllConventional(Options8(before))
  {
    var t0 := before;
    var t1 := Then(t0, Declaration(TaskPlugin.OptSelf, "-Self", false, false));
    ThenConventional(t0, t1.last);
    var t2 := Then(t1, Declaration(TaskPlugin.OptSet, "-Set", false, false));
    ThenConventional(t1, t2.last);
    var t3 := Then(t2, Declaration(TaskPlugin.OptSkipDuplicate, "-SkipDuplicate", false, false));
    ThenConventional(t2, t3.last);
    var t4 := Then(t3, Declaration(TaskPlugin.OptSolutionDirectory, "-SolutionDirectory", false, false));
    ThenConventional(t3, t4.last);
    var t5 := Then(t4, Declaration(TaskPlugin.OptSource, "-Source", false, false));
    ThenConventional(t4, t5.last);
    var t6 := Then(t5, Declaration(TaskPlugin.OptStorePasswordInClearText, "-StorePasswordInClearText", false, false));
    ThenConventional(t5, t6.last);
  }

  /** The declarations of Options9 keep to the conventions. */
  lemma Options9Conventional(before: Trail)
    requires AllConventional(before)
    ensures AllConventional(Options9(before))
  {
    var t0 := before;
    var t1 := Then(t0, Declaration(TaskPlugin.OptSuffix, "-Suffix", false, false));
    ThenConventional(t0, t1.last);
    var t2 := Then(t1, Declaration(TaskPlugin.OptSymbolApiKey, "-SymbolApiKey", false, true));
    ThenConventional(t1, t2.last);
    var t3 := Then(t2, Declaration(TaskPlugin.OptSymbolPackageFormat, "-SymbolPackageFormat", false, false));
    ThenConventional(t2, t3.last);
    var t4 := Then(t3, Declaration(TaskPlugin.OptSymbolSource, "-SymbolSource", false, false));
    ThenConventional(t3, t4.last);
    var t5 := Then(t4, Declaration(TaskPlugin.OptSymbols, "-Symbols", false, false));
    ThenConventional(t4, t5.last);
    var t6 := Then(t5, Declaration(TaskPlugin.OptTimeout, "-Timeout", false, false));
    ThenConventional(t5, t6.last);
  }

  /** The declarations of Options10 keep to the conventions. */
  lemma Options10Conventional(before: Trail)
    requires AllConventional(before)
    ensures AllConventional(Options10(before))
  {
    var t0 := before;
    var t1 := Then(t0, Declaration(TaskPlugin.OptTool, "-Tool", false, false));
    ThenConventional(t0, t1.last);
    var t2 := Then(t1, Declaration(TaskPlugin.OptUseLockFile, "-UseLockFile", false, false));
    ThenConventional(t1, t2.last);
    var t3 := Then(t2, Declaration(TaskPlugin.OptUsername, "-Username", false, false));
    ThenConventional(t2, t3.last);
    var t4 := Then(t3, Declaration(TaskPlugin.OptValidAuthenticationTypes, "-ValidAuthenticationTypes", false, false));
    ThenConventional(t3, t4.last);
    var t5 := Then(t4, Declaration(TaskPlugin.OptVerbosity, "-Verbosity", false, false));
    ThenConventional(t4, t5.last);
    var t6 := Then(t5, Declaration(TaskPlugin.OptVersion, "-Version", false, false));
    ThenConventional(t5, t6.last);
  }

  /** The declarations of EnvironmentFlags1 keep to the conventions. */
  lemma EnvironmentFlags1Conventional(before: Trail)
    requires AllConventional(before)
    ensures AllConventional(EnvironmentFlags1(before))
  {
    var t0 := before;
    var t1 := Then(t0, Declaration("argPackageIdOrFilePathFromEnv", "argPackageIdOrFilePath Is Env Var?", false, false));
    ThenConventional(t0, t1.last);
    var t2 := Then(t1, Declaration("argPackageVersionFromEnv", "argPackageVersion Is Env Var?", false, false));
    ThenConventional(t1, t2.last);
    var t3 := Then(t2, Declaration("argSourceFromEnv", "argSource Is Env Var?", false, false));
    ThenConventional(t2, t3.last);
    var t4 := Then(t3, Declaration("argDestinationFromEnv", "argDestination Is Env Var?", false, false));
    ThenConventional(t3, t4.last);
    var t5 := Then(t4, Declaration("argOperationFromEnv", "argOperation Is Env Var?", false, false));
    ThenConventional(t4, t5.last);
    var t6 := Then(t5, Declaration("optVersionFromEnv", "optVersion Is Env Var?", false, false));
    ThenConventional(t5, t6.last);
    var t7 := Then(t6, Declaration("optSourceFromEnv", "optSource Is Env Var?", false, false));
    ThenConventional(t6, t7.last);
  }

  /** The declarations of EnvironmentFlags2 keep to the conventions. */
  lemma EnvironmentFlags2Conventional(before: Trail)
    requires AllConventional(before)
    ensures AllConventional(EnvironmentFlags2(before))
  {
    var t0 := before;
    var t1 := Then(t0, Declaration("optOutputDirectoryFromEnv", "optOutputDirectory Is Env Var?", false, false));
    ThenConventional(t0, t1.last);
    var t2 := Then(t1, Declaration("optSolutionDirectoryFromEnv", "optSolutionDirectory Is Env Var?", false, false));
    ThenConventional(t1, t2.last);
    var t3 := Then(t2, Declaration("optFrameworkFromEnv", "optFramework Is Env Var?", false, false));
    ThenConventional(t2, t3.last);
    var t4 := Then(t3, Declaration("optBasePathFromEnv", "optBasePath Is Env Var?", false, false));
    ThenConventional(t3, t4.last);
    var t5 := Then(t4, Declaration("optExcludeFromEnv", "optExclude Is Env Var?", false, false));
    ThenConventional(t4, t5.last);
    var t6 := Then(t5, Declaration("optMinClientVersionFromEnv", "optMinClientVersion Is Env Var?", false, false));
    ThenConventional(t5, t6.last);
    var t7 := Then(t6, Declaration("optPropertiesFromEnv", "optProperties Is Env Var?", false, false));
    ThenConventional(t6, t7.last);
  }

  /** The declarations of EnvironmentFlags3 keep to the conventions. */
  lemma EnvironmentFlags3Conventional(before: Trail)
    requires AllConventional(before)
    ensures AllConventional(EnvironmentFlags3(before))
  {
    var t0 := before;
    var t1 := Then(t0, Declaration("optSuffixFromEnv", "optSuffix Is Env Var?", false, false));
    ThenConventional(t0, t1.last);
    var t2 := Then(t1, Declaration("optFallbackSourceFromEnv", "optFallbackSource Is Env Var?", false, false));
    ThenConventional(t1, t2.last);
    var t3 := Then(t2, Declaration("optMSBuildPathFromEnv", "optMSBuildPath Is Env Var?", false, false));
    ThenConventional(t2, t3.last);
    var t4 := Then(t3, Declaration("optMSBuildVersionFromEnv", "optMSBuildVersion Is Env Var?", false, false));
    ThenConventional(t3, t4.last);
    var t5 := Then(t4, Declaration("optPackagesDirectoryFromEnv", "optPackagesDirectory Is Env Var?", false, false));
    ThenConventional(t4, t5.last);
    var t6 := Then(t5, Declaration("optApiKeyFromEnv", "optApiKey Is Env Var?", false, false));
    ThenConventional(t5, t6.last);
    var t7 := Then(t6, Declaration("optSymbolSourceFromEnv", "optSymbolSource Is Env Var?", false, false));
    ThenConventional(t6, t7.last);
  }

  /** The declarations of EnvironmentFlags4 keep to the conventions. */
  lemma EnvironmentFlags4Conventional(before: Trail)
    requires AllConventional(before)
    ensures AllConventional(EnvironmentFlags4(before))
  {
    var t0 := before;
    var t1 := Then(t0, Declaration("optSymbolApiKeyFromEnv", "optSymbolApiKey Is Env Var?", false, false));
    ThenConventional(t0, t1.last);
    var t2 := Then(t1, Declaration("optTimeoutFromEnv", "optTimeout Is Env Var?", false, false));
    ThenConventional(t1, t2.last);
    var t3 := Then(t2, Declaration("optSetFromEnv", "optSet Is Env Var?", false, false));
    ThenConventional(t2, t3.last);
    var t4 := Then(t3, Declaration("optAsPathFromEnv", "optAsPath Is Env Var?", false, false));
    ThenConventional(t3, t4.last);
    var t5 := Then(t4, Declaration("optLockFilePathFromEnv", "optLockFilePath Is Env Var?", false, false));
    ThenConventional(t4, t5.last);
    var t6 := Then(t5, Declaration("optProject2ProjectTimeOutFromEnv", "optProject2ProjectTimeOut Is Env Var?", false, false));
    ThenConventional(t5, t6.last);
    var t7 := Then(t6, Declaration("optNameFromEnv", "optName Is Env Var?", false, false));
    ThenConventional(t6, t7.last);
  }

  /** The declarations of EnvironmentFlags5 keep to the conventions. */
  lemma EnvironmentFlags5Conventional(before: Trail)
    requires AllConventional(before)
    ensures AllConventional(EnvironmentFlags5(before))
  {
    var t0 := before;
    var t1 := Then(t0, Declaration("optProtocolVersionFromEnv", "optProtocolVersion Is Env Var?", false, false));
    ThenConventional(t0, t1.last);
    var t2 := Then(t1, Declaration("optUsernameFromEnv", "optUsername Is Env Var?", false, false));
    ThenConventional(t1, t2.last);
    var t3 := Then(t2, Declaration("optPasswordFromEnv", "optPassword Is Env Var?", false, false));
    ThenConventional(t2, t3.last);
    var t4 := Then(t3, Declaration("optValidAuthenticationTypesFromEnv", "optValidAuthenticationTypes Is Env Var?", false, false));
    ThenConventional(t3, t4.last);
    var t5 := Then(t4, Declaration("optIdFromEnv", "optId Is Env Var?", false, false));
    ThenConventional(t4, t5.last);
    var t6 := Then(t5, Declaration("optRepositoryPathFromEnv", "optRepositoryPath Is Env Var?", false, false));
    ThenConventional(t5, t6.last);
  }

  /** A conventional declaration after conventional ones. */
  lemma ThenConventional(before: Trail, d: Declaration)
    requires AllConventional(before) && Conventional(d)
    ensures AllConventional(Then(before, d))
  {
  }

  /** The declarations of the command, the arguments and the options keep to the conventions. */
  lemma ArgumentsAndOptionsConventional(before: Trail)
    requires AllConventional(before)
    ensures AllConventional(ArgumentsAndOptions(before))
  {
    CommandAndArgumentsConventional(before);
    OptionsAToMConventional(CommandAndArguments(before));
    OptionsNToZConventional(OptionsAToM(CommandAndArguments(before)));
  }

  /** The declarations of the options from -AllowInsecureConnections to -MSBuildVersion keep to the conventions. */
  lemma OptionsAToMConventional(before: Trail)
    requires AllConventional(before)
    ensures AllConventional(OptionsAToM(before))
  {
    var t := before;
    Options1Conventional(t);
    t := Options1(t);
    Options2Conventional(t);
    t := Options2(t);
    Options3Conventional(t);
    t := Options3(t);
    Options4Conventional(t);
    t := Options4(t);
    Options5Conventional(t);
    t := Options5(t);
  }

  /** The declarations of the options from -NoSymbols to -Version keep to the conventions. */
  lemma OptionsNToZConventional(before: Trail)
    requires AllConventional(before)
    ensures AllConventional(OptionsNToZ(before))
  {
    var t := before;
    Options6Conventional(t);
    t := Options6(t);
    Options7Conventional(t);
    t := Options7(t);
    Options8Conventional(t);
    t := Options8(t);
    Options9Conventional(t);
    t := Options9(t);
    Options10Conventional(t);
    t := Options10(t);
  }

  /** The declarations of the environment-expansion switches keep to the conventions. */
  lemma EnvironmentFlagsConventional(before: Trail)
    requires AllConventional(before)
    ensures AllConventional(EnvironmentFlags(before))
  {
    var t := before;
    EnvironmentFlags1Conventional(t);
    t := EnvironmentFlags1(t);
    EnvironmentFlags2Conventional(t);
    t := EnvironmentFlags2(t);
    EnvironmentFlags3Conventional(t);
    t := EnvironmentFlags3(t);
    EnvironmentFlags4Conventional(t);
    t := EnvironmentFlags4(t);
    EnvironmentFlags5Conventional(t);
    t := EnvironmentFlags5(t);
  }

  /** The declarations of execute keep to the conventions. */
  lemma DeclarationsConventional()
    ensures AllConventional(Declarations())
  {
    ArgumentsAndOptionsConventional(Start);
    EnvironmentFlagsConventional(ArgumentsAndOptions(Start));
  }

  /**
   * Conventional declarations, made from a conventional map, give a
   * conventional map.
   */
  lemma {:induction false} DeclaredConventional(t: Trail, base: map<string, Property>, start: int)
    requires AllConventional(t) && ConventionalConfiguration(base)
    ensures ConventionalConfiguration(Declared(t, base, start))
  {
    match t
    case Start =>
    case Then(before, d) =>
      assert Made(t) == Made(before) + [d];
      assert d in Made(t);
      assert forall e :: e in Made(before) ==> e in Made(t);
      DeclaredConventional(before, base, start);
  }

  /**
   * The map of conventional declarations made from an empty map with the
   * counter at 0: conventional, holding exactly the declared properties,
   * each at the display order of its last declaration.
   */
  lemma DeclaredFacts(t: Trail)
    requires AllConventional(t)
    ensures ConventionalConfiguration(Declared(t, map[], 0))
    ensures forall k :: k in Declared(t, map[], 0) <==> Declares(t, k)
    ensures forall k :: k in Declared(t, map[], 0) ==>
      Declares(t, k) && Declared(t, map[], 0)[k].displayOrder == NatToString(LastPosition(t, k))
  {
    DeclaredConventional(t, map[], 0);
    DeclaredKeys(t, map[], 0);
    forall k | k in Declared(t, map[], 0)
      ensures Declares(t, k) && Declared(t, map[], 0)[k].displayOrder == NatToString(LastPosition(t, k))
    {
      DeclaredValue(t, map[], 0, k);
      assert Declared(t, map[], 0)[k] == PropertyOf(LastDeclaration(t, k), LastPosition(t, k));
    }
  }

  /** Some declaration on the trail names property k. */
  predicate Declares(t: Trail, k: string)
  {
    match t
    case Start => false
    case Then(before, d) => d.property == k || Declares(before, k)
  }

  /** The position of the last declaration of k, counting from 0. */
  function LastPosition(t: Trail, k: string): (i: nat)
    requires Declares(t, k)
    ensures i < Count(t)
  {
    match t
    case Then(before, d) => if d.property == k then Count(before) else LastPosition(before, k)
  }

  /** The last declaration of k. */
  function LastDeclaration(t: Trail, k: string): (d: Declaration)
    requires Declares(t, k)
    ensures d.property == k
    ensures d == Made(t)[LastPosition(t, k)]
  {
    match t
    case Then(before, d) => if d.property == k then d else LastDeclaration(before, k)
  }

  /** A property is in the map exactly when it was in the base map or was declared. */
  lemma {:induction false} DeclaredKeys(t: Trail, base: map<string, Property>, start: int)
    ensures forall k :: k in Declared(t, base, start) <==> k in base || Declares(t, k)
  {
    match t
    case Start =>
    case Then(before, d) =>
      DeclaredKeys(before, base, start);
  }

  /** A declared property holds what its last declaration put, at that declaration's turn. */
  lemma {:induction false} DeclaredValue(t: Trail, base: map<string, Property>, start: int, k: string)
    requires Declares(t, k)
    ensures k in Declared(t, base, start)
    ensures Declared(t, base, start)[k] == PropertyOf(LastDeclaration(t, k), start + LastPosition(t, k))
  {
    match t
    case Then(before, d) =>
      if d.property != k {
        DeclaredValue(before, base, start, k);
      }
  }

  /** GetConfigRequest (GetConfigRequest.java:27-198). */
  class GetConfigRequest {
    /** The display order the next declaration without one of its own takes. */
    var addConfigPropertyIndex: int

    constructor()
      ensures addConfigPropertyIndex == 0
    {
      addConfigPropertyIndex := 0;
    }

    /** The seven-argument addConfigProperty (GetConfigRequest.java:54-72): puts the property's map. */
    method AddConfigPropertyFull(config: map<string, Property>, propertyName: string, displayName: Option<string>,
                                 defaultValue: Option<string>, required: bool, secure: bool, displayOrder: int)
      returns (r: map<string, Property>)
      ensures r == config[propertyName := NewProperty(displayName, defaultValue, required, secure, displayOrder)]
    {
      var defaultEntry: Option<string> := None;
      if defaultValue.Some? && defaultValue.value != "" {
        defaultEntry := defaultValue;
      }
      var nameEntry: Option<string> := None;
      if displayName.Some? && displayName.value != "" {
        nameEntry := displayName;
      }
      var property := Property(defaultEntry, nameEntry, IntToString(displayOrder), secure, required);
      r := config[propertyName := property];
    }

    /** addConfigProperty with a default value and a display order (GetConfigRequest.java:50-52). */
    method AddConfigPropertyWithDefaultAt(config: map<string, Property>, propertyName: string, displayName: Option<string>,
                                          defaultValue: Option<string>, displayOrder: int)
      returns (r: map<string, Property>)
      ensures r == config[propertyName := NewProperty(displayName, defaultValue, false, false, displayOrder)]
    {
      r := AddConfigPropertyFull(config, propertyName, displayName, defaultValue, false, false, displayOrder);
    }

    /** addConfigProperty with required and a display order (GetConfigRequest.java:46-48). */
    method AddConfigPropertyAt(config: map<string, Property>, propertyName: string, displayName: Option<string>,
                               required: bool, displayOrder: int)
      returns (r: map<string, Property>)
      ensures r == config[propertyName := NewProperty(displayName, None, required, false, displayOrder)]
    {
      r := AddConfigPropertyFull(config, propertyName, displayName, None, required, false, displayOrder);
    }

    /** addConfigProperty with required and secure, at the next display order (GetConfigRequest.java:42-44). */
    method AddConfigPropertySecure(config: map<string, Property>, propertyName: string, displayName: Option<string>,
                                   required: bool, secure: bool)
      returns (r: map<string, Property>)
      modifies this
      ensures r == config[propertyName := NewProperty(displayName, None, required, secure, old(addConfigPropertyIndex))]
      ensures addConfigPropertyIndex == old(addConfigPropertyIndex) + 1
    {
      var displayOrder := addConfigPropertyIndex;
      addConfigPropertyIndex := addConfigPropertyIndex + 1;
      r := AddConfigPropertyFull(config, propertyName, displayName, None, required, secure, displayOrder);
    }

    /** addConfigProperty with required, at the next display order (GetConfigRequest.java:38-40). */
    method AddConfigPropertyRequired(config: map<string, Property>, propertyName: string, displayName: Option<string>,
                                     required: bool)
      returns (r: map<string, Property>)
      modifies this
      ensures r == config[propertyName := NewProperty(displayName, None, required, false, old(addConfigPropertyIndex))]
      ensures addConfigPropertyIndex == old(addConfigPropertyIndex) + 1
    {
      var displayOrder := addConfigPropertyIndex;
      addConfigPropertyIndex := addConfigPropertyIndex + 1;
      r := AddConfigPropertyAt(config, propertyName, displayName, required, displayOrder);
    }

    /** addConfigProperty with a default value, at the next display order (GetConfigRequest.java:34-36). */
    method AddConfigPropertyWithDefault(config: map<string, Property>, propertyName: string, displayName: Option<string>,
                                        defaultValue: Option<string>)
      returns (r: map<string, Property>)
      modifies this
      ensures r == config[propertyName := NewProperty(displayName, defaultValue, false, false, old(addConfigPropertyIndex))]
      ensures addConfigPropertyIndex == old(addConfigPropertyIndex) + 1
    {
      var displayOrder := addConfigPropertyIndex;
      addConfigPropertyIndex := addConfigPropertyIndex + 1;
      r := AddConfigPropertyWithDefaultAt(config, propertyName, displayName, defaultValue, displayOrder);
    }

    /** addConfigProperty with a display name only: not required (GetConfigRequest.java:30-32). */
    method AddConfigProperty(config: map<string, Property>, propertyName: string, displayName: Option<string>)
      returns (r: map<string, Property>)
      modifies this
      ensures r == config[propertyName := NewProperty(displayName, None, false, false, old(addConfigPropertyIndex))]
      ensures addConfigPropertyIndex == old(addConfigPropertyIndex) + 1
    {
      r := AddConfigPropertyRequired(config, propertyName, displayName, false);
    }

    /**
     * One call of execute: the overload its declaration's flags select,
     * each taking the next display order.
     */
    method Declare(config: map<string, Property>, ghost done: Trail,
                   ghost base: map<string, Property>, ghost start: int, d: Declaration)
      returns (r: map<string, Property>, ghost next: Trail)
      modifies this
      requires config == Declared(done, base, start) && addConfigPropertyIndex == start + Count(done)
      ensures next == Then(done, d)
      ensures r == Declared(next, base, start) && addConfigPropertyIndex == start + Count(next)
      ensures r.Keys == config.Keys + {d.property}
    {
      if d.secure {
        r := AddConfigPropertySecure(config, d.property, Some(d.displayName), d.required, d.secure);
      } else if d.required {
        r := AddConfigPropertyRequired(config, d.property, Some(d.displayName), d.required);
      } else {
        r := AddConfigProperty(config, d.property, Some(d.displayName));
      }
      next := Then(done, d);
    }

    /** The calls of GetConfigRequest.java:82-89. */
    method DeclareCommandAndArguments(config: map<string, Property>, ghost done: Trail,
                      ghost base: map<string, Property>, ghost start: int)
      returns (r: map<string, Property>, ghost next: Trail)
      modifies this
      requires config == Declared(done, base, start) && addConfigPropertyIndex == start + Count(done)
      ensures next == CommandAndArguments(done)
      ensures r == Declared(next, base, start) && addConfigPropertyIndex == start + Count(next)
      ensures config.Keys <= r.Keys
      ensures TaskPlugin.CommandProperty in r
    {
      r, next := config, done;
      r, next := Declare(r, next, base, start, Declaration(TaskPlugin.CommandProperty, "Command", true, false));
      r, next := Declare(r, next, base, start, Declaration(TaskPlugin.ArgPackageIdOrFilePath, "<Package ID> or <File Path>", false, false));
      r, next := Declare(r, next, base, start, Declaration(TaskPlugin.ArgPackageVersion, "<Package Version>", false, false));
      r, next := Declare(r, next, base, start, Declaration(TaskPlugin.ArgSource, "<Source>", false, false));
      r, next := Declare(r, next, base, start, Declaration(TaskPlugin.ArgDestination, "<Destination>", false, false));
      r, next := Declare(r, next, base, start, Declaration(TaskPlugin.ArgOperation, "<Operation>", false, false));
    }

    /** The calls of GetConfigRequest.java:92-98. */
    method DeclareOptions1(config: map<string, Property>, ghost done: Trail,
                      ghost base: map<string, Property>, ghost start: int)
      returns (r: map<string, Property>, ghost next: Trail)
      modifies this
      requires config == Declared(done, base, start) && addConfigPropertyIndex == start + Count(done)
      ensures next == Options1(done)
      ensures r == Declared(next, base, start) && addConfigPropertyIndex == start + Count(next)
      ensures config.Keys <= r.Keys
      ensures TaskPlugin.OptApiKey in r
    {
      r, next := config, done;
      r, next := Declare(r, next, base, start, Declaration(TaskPlugin.OptAllowInsecureConnections, "-AllowInsecureConnections", false, false));
      r, next := Declare(r, next, base, start, Declaration(TaskPlugin.OptApiKey, "-ApiKey", false, true));
      r, next := Declare(r, next, base, start, Declaration(TaskPlugin.OptAsPath, "-AsPath", false, false));
      r, next := Declare(r, next, base, start, Declaration(TaskPlugin.OptBasePath, "-BasePath", false, false));
      r, next := Declare(r, next, base, start, Declaration(TaskPlugin.OptBuild, "-Build", false, false));
      r, next := Declare(r, next, base, start, Declaration(TaskPlugin.OptConfigFile, "-ConfigFile", false, false));
      r, next := Declare(r, next, base, start, Declaration(TaskPlugin.OptDependencyVersion, "-DependencyVersion", false, false));
    }

    /** The calls of GetConfigRequest.java:99-105. */
    method DeclareOptions2(config: map<string, Property>, ghost done: Trail,
                      ghost base: map<string, Property>, ghost start: int)
      returns (r: map<string, Property>, ghost next: Trail)
      modifies this
      requires config == Declared(done, base, start) && addConfigPropertyIndex == start + Count(done)
      ensures next == Options2(done)
      ensures r == Declared(next, base, start) && addConfigPropertyIndex == start + Count(next)
      ensures config.Keys <= r.Keys
    {
      r, next := config, done;
      r, next := Declare(r, next, base, start, Declaration(TaskPlugin.OptDirectDownload, "-DirectDownload", false, false));
      r, next := Declare(r, next, base, start, Declaration(TaskPlugin.OptDisableBuffering, "-DisableBuffering", false, false));
      r, next := Declare(r, next, base, start, Declaration(TaskPlugin.OptDisableParallelProcessing, "-DisableParallelProcessing", false, false));
      r, next := Declare(r, next, base, start, Declaration(TaskPlugin.OptExclude, "-Exclude", false, false));
      r, next := Declare(r, next, base, start, Declaration(TaskPlugin.OptExcludeEmptyDirectories, "-ExcludeEmptyDirectories", false, false));
      r, next := Declare(r, next, base, start, Declaration(TaskPlugin.OptExcludeVersion, "-ExcludeVersion", false, false));
      r, next := Declare(r, next, base, start, Declaration(TaskPlugin.OptExpand, "-Expand", false, false));
    }

    /** The calls of GetConfigRequest.java:106-112. */
    method DeclareOptions3(config: map<string, Property>, ghost done: Trail,
                      ghost base: map<string, Property>, ghost start: int)
      returns (r: map<string, Property>, ghost next: Trail)
      modifies this
      requires config == Declared(done, base, start) && addConfigPropertyIndex == start + Count(done)
      ensures next == Options3(done)
      ensures r == Declared(next, base, start) && addConfigPropertyIndex == start + Count(next)
      ensures config.Keys <= r.Keys
    {
      r, next := config, done;
      r, next := Declare(r, next, base, start, Declaration(TaskPlugin.OptFallbackSource, "-FallbackSource", false, false));
      r, next := Declare(r, next, base, start, Declaration(TaskPlugin.OptFileConflictAction, "-FileConflictAction", false, false));
      r, next := Declare(r, next, base, start, Declaration(TaskPlugin.OptForceEnglishOutput, "-ForceEnglishOutput", false, false));
      r, next := Declare(r, next, base, start, Declaration(TaskPlugin.OptForceEvaluate, "-ForceEvaluate", false, false));
      r, next := Declare(r, next, base, start, Declaration(TaskPlugin.OptForce, "-Force", false, false));
      r, next := Declare(r, next, base, start, Declaration(TaskPlugin.OptFormat, "-Format", false, false));
      r, next := Declare(r, next, base, start, Declaration(TaskPlugin.OptFramework, "-Framework", false, false));
    }

    /** The calls of GetConfigRequest.java:113-119. */
    method DeclareOptions4(config: map<string, Property>, ghost done: Trail,
                      ghost base: map<string, Property>, ghost start: int)
      returns (r: map<string, Property>, ghost next: Trail)
      modifies this
      requires config == Declared(done, base, start) && addConfigPropertyIndex == start + Count(done)
      ensures next == Options4(done)
      ensures r == Declared(next, base, start) && addConfigPropertyIndex == start + Count(next)
      ensures config.Keys <= r.Keys
    {
      r, next := config, done;
      r, next := Declare(r, next, base, start, Declaration(TaskPlugin.OptId, "-Id", false, false));
      r, next := Declare(r, next, base, start, Declaration(TaskPlugin.OptIncludeReferencedProjects, "-IncludeReferencedProjects", false, false));
      r, next := Declare(r, next, base, start, Declaration(TaskPlugin.OptInstallPackageToOutputPath, "-InstallPackageToOutputPath", false, false));
      r, next := Declare(r, next, base, start, Declaration(TaskPlugin.OptLockFilePath, "-LockFilePath", false, false));
      r, next := Declare(r, next, base, start, Declaration(TaskPlugin.OptLockedMode, "-LockedMode", false, false));
      r, next := Declare(r, next, base, start, Declaration(TaskPlugin.OptMinClientVersion, "-MinClientVersion", false, false));
      r, next := Declare(r, next, base, start, Declaration(TaskPlugin.OptMSBuildPath, "-MsBuildPath", false, false));
    }

    /** The calls of GetConfigRequest.java:120-126. */
    method DeclareOptions5(config: map<string, Property>, ghost done: Trail,
                      ghost base: map<string, Property>, ghost start: int)
      returns (r: map<string, Property>, ghost next: Trail)
      modifies this
      requires config == Declared(done, base, start) && addConfigPropertyIndex == start + Count(done)
      ensures next == Options5(done)
      ensures r == Declared(next, base, start) && addConfigPropertyIndex == start + Count(next)
      ensures config.Keys <= r.Keys
    {
      r, next := config, done;
      r, next := Declare(r, next, base, start, Declaration(TaskPlugin.OptMSBuildVersion, "-MsBuildVersion", false, false));
      r, next := Declare(r, next, base, start, Declaration(TaskPlugin.OptName, "-Name", false, false));
      r, next := Declare(r, next, base, start, Declaration(TaskPlugin.OptNoDefaultExcludes, "-NoDefaultExcludes", false, false));
      r, next := Declare(r, next, base, start, Declaration(TaskPlugin.OptNoHttpCache, "-NoHttpCache", false, false));
      r, next := Declare(r, next, base, start, Declaration(TaskPlugin.OptNoPackageAnalysis, "-NoPackageAnalysis", false, false));
      r, next := Declare(r, next, base, start, Declaration(TaskPlugin.OptNoPrompt, "-NoPrompt", false, false));
      r, next := Declare(r, next, base, start, Declaration(TaskPlugin.OptNoServiceEndpoint, "-NoServiceEndpoint", false, false));
    }

    /** The calls of GetConfigRequest.java:127-133. */
    method DeclareOptions6(config: map<string, Property>, ghost done: Trail,
                      ghost base: map<string, Property>, ghost start: int)
      returns (r: map<string, Property>, ghost next: Trail)
      modifies this
      requires config == Declared(done, base, start) && addConfigPropertyIndex == start + Count(done)
      ensures next == Options6(done)
      ensures r == Declared(next, base, start) && addConfigPropertyIndex == start + Count(next)
      ensures config.Keys <= r.Keys
      ensures TaskPlugin.OptPassword in r
    {
      r, next := config, done;
      r, next := Declare(r, next, base, start, Declaration(TaskPlugin.OptNoSymbols, "-NoSymbols", false, false));
      r, next := Declare(r, next, base, start, Declaration(TaskPlugin.OptOutputDirectory, "-OutputDirectory", false, false));
      r, next := Declare(r, next, base, start, Declaration(TaskPlugin.OptOutputFileNamesWithoutVersion, "-OutputFileNamesWithoutVersion", false, false));
      r, next := Declare(r, next, base, start, Declaration(TaskPlugin.OptPackageSaveMode, "-PackageSaveMode", false, false));
      r, next := Declare(r, next, base, start, Declaration(TaskPlugin.OptPackagesDirectory, "-PackagesDirectory", false, false));
      r, next := Declare(r, next, base, start, Declaration(TaskPlugin.OptPassword, "-Password", false, true));
      r, next := Declare(r, next, base, start, Declaration(TaskPlugin.OptPreRelease, "-PreRelease", false, false));
    }

    /** The calls of GetConfigRequest.java:134-140. */
    method DeclareOptions7(config: map<string, Property>, ghost done: Trail,
                      ghost base: map<string, Property>, ghost start: int)
      returns (r: map<string, Property>, ghost next: Trail)
      modifies this
      requires config == Declared(done, base, start) && addConfigPropertyIndex == start + Count(done)
      ensures next == Options7(done)
      ensures r == Declared(next, base, start) && addConfigPropertyIndex == start + Count(next)
      ensures config.Keys <= r.Keys
    {
      r, next := config, done;
      r, next := Declare(r, next, base, start, Declaration(TaskPlugin.OptProject2ProjectTimeOut, "-Project2ProjectTimeOut", false, false));
      r, next := Declare(r, next, base, start, Declaration(TaskPlugin.OptProperties, "-Properties", false, false));
      r, next := Declare(r, next, base, start, Declaration(TaskPlugin.OptProtocolVersion, "-ProtocolVersion", false, false));
      r, next := Declare(r, next, base, start, Declaration(TaskPlugin.OptRecursive, "-Recursive", false, false));
      r, next := Declare(r, next, base, start, Declaration(TaskPlugin.OptRepositoryPath, "-RepositoryPath", false, false));
      r, next := Declare(r, next, base, start, Declaration(TaskPlugin.OptRequireConsent, "-RequireConsent", false, false));
      r, next := Declare(r, next, base, start, Declaration(TaskPlugin.OptSafe, "-Safe", false, false));
    }

    /** The calls of GetConfigRequest.java:141-146. */
    method DeclareOptions8(config: map<string, Property>, ghost done: Trail,
                      ghost base: map<string, Property>, ghost start: int)
      returns (r: map<string, Property>, ghost next: Trail)
      modifies this
      requires config == Declared(done, base, start) && addConfigPropertyIndex == start + Count(done)
      ensures next == Options8(done)
      ensures r == Declared(next, base, start) && addConfigPropertyIndex == start + Count(next)
      ensures config.Keys <= r.Keys
    {
      r, next := config, done;
      r, next := Declare(r, next, base, start, Declaration(TaskPlugin.OptSelf, "-Self", false, false));
      r, next := Declare(r, next, base, start, Declaration(TaskPlugin.OptSet, "-Set", false, false));
      r, next := Declare(r, next, base, start, Declaration(TaskPlugin.OptSkipDuplicate, "-SkipDuplicate", false, false));
      r, next := Declare(r, next, base, start, Declaration(TaskPlugin.OptSolutionDirectory, "-SolutionDirectory", false, false));
      r, next := Declare(r, next, base, start, Declaration(TaskPlugin.OptSource, "-Source", false, false));
      r, next := Declare(r, next, base, start, Declaration(TaskPlugin.OptStorePasswordInClearText, "-StorePasswordInClearText", false, false));
    }

    /** The calls of GetConfigRequest.java:147-152. */
    method DeclareOptions9(config: map<string, Property>, ghost done: Trail,
                      ghost base: map<string, Property>, ghost start: int)
      returns (r: map<string, Property>, ghost next: Trail)
      modifies this
      requires config == Declared(done, base, start) && addConfigPropertyIndex == start + Count(done)
      ensures next == Options9(done)
      ensures r == Declared(next, base, start) && addConfigPropertyIndex == start + Count(next)
      ensures config.Keys <= r.Keys
      ensures TaskPlugin.OptSymbolApiKey in r
    {
      r, next := config, done;
      r, next := Declare(r, next, base, start, Declaration(TaskPlugin.OptSuffix, "-Suffix", false, false));
      r, next := Declare(r, next, base, start, Declaration(TaskPlugin.OptSymbolApiKey, "-SymbolApiKey", false, true));
      r, next := Declare(r, next, base, start, Declaration(TaskPlugin.OptSymbolPackageFormat, "-SymbolPackageFormat", false, false));
      r, next := Declare(r, next, base, start, Declaration(TaskPlugin.OptSymbolSource, "-SymbolSource", false, false));
      r, next := Declare(r, next, base, start, Declaration(TaskPlugin.OptSymbols, "-Symbols", false, false));
      r, next := Declare(r, next, base, start, Declaration(TaskPlugin.OptTimeout, "-Timeout", false, false));
    }

    /** The calls of GetConfigRequest.java:153-158. */
    method DeclareOptions10(config: map<string, Property>, ghost done: Trail,
                      ghost base: map<string, Property>, ghost start: int)
      returns (r: map<string, Property>, ghost next: Trail)
      modifies this
      requires config == Declared(done, base, start) && addConfigPropertyIndex == start + Count(done)
      ensures next == Options10(done)
      ensures r == Declared(next, base, start) && addConfigPropertyIndex == start + Count(next)
      ensures config.Keys <= r.Keys
    {
      r, next := config, done;
      r, next := Declare(r, next, base, start, Declaration(TaskPlugin.OptTool, "-Tool", false, false));
      r, next := Declare(r, next, base, start, Declaration(TaskPlugin.OptUseLockFile, "-UseLockFile", false, false));
      r, next := Declare(r, next, base, start, Declaration(TaskPlugin.OptUsername, "-Username", false, false));
      r, next := Declare(r, next, base, start, Declaration(TaskPlugin.OptValidAuthenticationTypes, "-ValidAuthenticationTypes", false, false));
      r, next := Declare(r, next, base, start, Declaration(TaskPlugin.OptVerbosity, "-Verbosity", false, false));
      r, next := Declare(r, next, base, start, Declaration(TaskPlugin.OptVersion, "-Version", false, false));
    }

    /** The calls of GetConfigRequest.java:161-167. */
    method DeclareEnvironmentFlags1(config: map<string, Property>, ghost done: Trail,
                      ghost base: map<string, Property>, ghost start: int)
      returns (r: map<string, Property>, ghost next: Trail)
      modifies this
      requires config == Declared(done, base, start) && addConfigPropertyIndex == start + Count(done)
      ensures next == EnvironmentFlags1(done)
      ensures r == Declared(next, base, start) && addConfigPropertyIndex == start + Count(next)
      ensures config.Keys <= r.Keys
    {
      r, next := config, done;
      r, next := Declare(r, next, base, start, Declaration("argPackageIdOrFilePathFromEnv", "argPackageIdOrFilePath Is Env Var?", false, false));
      r, next := Declare(r, next, base, start, Declaration("argPackageVersionFromEnv", "argPackageVersion Is Env Var?", false, false));
      r, next := Declare(r, next, base, start, Declaration("argSourceFromEnv", "argSource Is Env Var?", false, false));
      r, next := Declare(r, next, base, start, Declaration("argDestinationFromEnv", "argDestination Is Env Var?", false, false));
      r, next := Declare(r, next, base, start, Declaration("argOperationFromEnv", "argOperation Is Env Var?", false, false));
      r, next := Declare(r, next, base, start, Declaration("optVersionFromEnv", "optVersion Is Env Var?", false, false));
      r, next := Declare(r, next, base, start, Declaration("optSourceFromEnv", "optSource Is Env Var?", false, false));
    }

    /** The calls of GetConfigRequest.java:168-174. */
    method DeclareEnvironmentFlags2(config: map<string, Property>, ghost done: Trail,
                      ghost base: map<string, Property>, ghost start: int)
      returns (r: map<string, Property>, ghost next: Trail)
      modifies this
      requires config == Declared(done, base, start) && addConfigPropertyIndex == start + Count(done)
      ensures next == EnvironmentFlags2(done)
      ensures r == Declared(next, base, start) && addConfigPropertyIndex == start + Count(next)
      ensures config.Keys <= r.Keys
    {
      r, next := config, done;
      r, next := Declare(r, next, base, start, Declaration("optOutputDirectoryFromEnv", "optOutputDirectory Is Env Var?", false, false));
      r, next := Declare(r, next, base, start, Declaration("optSolutionDirectoryFromEnv", "optSolutionDirectory Is Env Var?", false, false));
      r, next := Declare(r, next, base, start, Declaration("optFrameworkFromEnv", "optFramework Is Env Var?", false, false));
      r, next := Declare(r, next, base, start, Declaration("optBasePathFromEnv", "optBasePath Is Env Var?", false, false));
      r, next := Declare(r, next, base, start, Declaration("optExcludeFromEnv", "optExclude Is Env Var?", false, false));
      r, next := Declare(r, next, base, start, Declaration("optMinClientVersionFromEnv", "optMinClientVersion Is Env Var?", false, false));
      r, next := Declare(r, next, base, start, Declaration("optPropertiesFromEnv", "optProperties Is Env Var?", false, false));
    }

    /** The calls of GetConfigRequest.java:175-181. */
    method DeclareEnvironmentFlags3(config: map<string, Property>, ghost done: Trail,
                      ghost base: map<string, Property>, ghost start: int)
      returns (r: map<string, Property>, ghost next: Trail)
      modifies this
      requires config == Declared(done, base, start) && addConfigPropertyIndex == start + Count(done)
      ensures next == EnvironmentFlags3(done)
      ensures r == Declared(next, base, start) && addConfigPropertyIndex == start + Count(next)
      ensures config.Keys <= r.Keys
    {
      r, next := config, done;
      r, next := Declare(r, next, base, start, Declaration("optSuffixFromEnv", "optSuffix Is Env Var?", false, false));
      r, next := Declare(r, next, base, start, Declaration("optFallbackSourceFromEnv", "optFallbackSource Is Env Var?", false, false));
      r, next := Declare(r, next, base, start, Declaration("optMSBuildPathFromEnv", "optMSBuildPath Is Env Var?", false, false));
      r, next := Declare(r, next, base, start, Declaration("optMSBuildVersionFromEnv", "optMSBuildVersion Is Env Var?", false, false));
      r, next := Declare(r, next, base, start, Declaration("optPackagesDirectoryFromEnv", "optPackagesDirectory Is Env Var?", false, false));
      r, next := Declare(r, next, base, start, Declaration("optApiKeyFromEnv", "optApiKey Is Env Var?", false, false));
      r, next := Declare(r, next, base, start, Declaration("optSymbolSourceFromEnv", "optSymbolSource Is Env Var?", false, false));
    }

    /** The calls of GetConfigRequest.java:182-188. */
    method DeclareEnvironmentFlags4(config: map<string, Property>, ghost done: Trail,
                      ghost base: map<string, Property>, ghost start: int)
      returns (r: map<string, Property>, ghost next: Trail)
      modifies this
      requires config == Declared(done, base, start) && addConfigPropertyIndex == start + Count(done)
      ensures next == EnvironmentFlags4(done)
      ensures r == Declared(next, base, start) && addConfigPropertyIndex == start + Count(next)
      ensures config.Keys <= r.Keys
    {
      r, next := config, done;
      r, next := Declare(r, next, base, start, Declaration("optSymbolApiKeyFromEnv", "optSymbolApiKey Is Env Var?", false, false));
      r, next := Declare(r, next, base, start, Declaration("optTimeoutFromEnv", "optTimeout Is Env Var?", false, false));
      r, next := Declare(r, next, base, start, Declaration("optSetFromEnv", "optSet Is Env Var?", false, false));
      r, next := Declare(r, next, base, start, Declaration("optAsPathFromEnv", "optAsPath Is Env Var?", false, false));
      r, next := Declare(r, next, base, start, Declaration("optLockFilePathFromEnv", "optLockFilePath Is Env Var?", false, false));
      r, next := Declare(r, next, base, start, Declaration("optProject2ProjectTimeOutFromEnv", "optProject2ProjectTimeOut Is Env Var?", false, false));
      r, next := Declare(r, next, base, start, Declaration("optNameFromEnv", "optName Is Env Var?", false, false));
    }

    /** The calls of GetConfigRequest.java:189-194. */
    method DeclareEnvironmentFlags5(config: map<string, Property>, ghost done: Trail,
                      ghost base: map<string, Property>, ghost start: int)
      returns (r: map<string, Property>, ghost next: Trail)
      modifies this
      requires config == Declared(done, base, start) && addConfigPropertyIndex == start + Count(done)
      ensures next == EnvironmentFlags5(done)
      ensures r == Declared(next, base, start) && addConfigPropertyIndex == start + Count(next)
      ensures config.Keys <= r.Keys
    {
      r, next := config, done;
      r, next := Declare(r, next, base, start, Declaration("optProtocolVersionFromEnv", "optProtocolVersion Is Env Var?", false, false));
      r, next := Declare(r, next, base, start, Declaration("optUsernameFromEnv", "optUsername Is Env Var?", false, false));
      r, next := Declare(r, next, base, start, Declaration("optPasswordFromEnv", "optPassword Is Env Var?", false, false));
      r, next := Declare(r, next, base, start, Declaration("optValidAuthenticationTypesFromEnv", "optValidAuthenticationTypes Is Env Var?", false, false));
      r, next := Declare(r, next, base, start, Declaration("optIdFromEnv", "optId Is Env Var?", false, false));
      r, next := Declare(r, next, base, start, Declaration("optRepositoryPathFromEnv", "optRepositoryPath Is Env Var?", false, false));
    }

    /** The calls of GetConfigRequest.java:82-158. */
    method DeclareArgumentsAndOptions(config: map<string, Property>, ghost done: Trail,
                                      ghost base: map<string, Property>, ghost start: int)
      returns (r: map<string, Property>, ghost next: Trail)
      modifies this
      requires config == Declared(done, base, start) && addConfigPropertyIndex == start + Count(done)
      ensures next == ArgumentsAndOptions(done)
      ensures r == Declared(next, base, start) && addConfigPropertyIndex == start + Count(next)
      ensures config.Keys <= r.Keys
      ensures TaskPlugin.CommandProperty in r && TaskPlugin.OptApiKey in r && TaskPlugin.OptPassword in r && TaskPlugin.OptSymbolApiKey in r
    {
      r, next := DeclareCommandAndArguments(config, done, base, start);
      r, next := DeclareOptionsAToM(r, next, base, start);
      r, next := DeclareOptionsNToZ(r, next, base, start);
    }

    /** The calls of GetConfigRequest.java:92-126. */
    method DeclareOptionsAToM(config: map<string, Property>, ghost done: Trail,
                              ghost base: map<string, Property>, ghost start: int)
      returns (r: map<string, Property>, ghost next: Trail)
      modifies this
      requires config == Declared(done, base, start) && addConfigPropertyIndex == start + Count(done)
      ensures next == OptionsAToM(done)
      ensures r == Declared(next, base, start) && addConfigPropertyIndex == start + Count(next)
      ensures config.Keys <= r.Keys
      ensures TaskPlugin.OptApiKey in r
    {
      r, next := DeclareOptions1(config, done, base, start);
      r, next := DeclareOptions2(r, next, base, start);
      r, next := DeclareOptions3(r, next, base, start);
      r, next := DeclareOptions4(r, next, base, start);
      r, next := DeclareOptions5(r, next, base, start);
    }

    /** The calls of GetConfigRequest.java:127-158. */
    method DeclareOptionsNToZ(config: map<string, Property>, ghost done: Trail,
                              ghost base: map<string, Property>, ghost start: int)
      returns (r: map<string, Property>, ghost next: Trail)
      modifies this
      requires config == Declared(done, base, start) && addConfigPropertyIndex == start + Count(done)
      ensures next == OptionsNToZ(done)
      ensures r == Declared(next, base, start) && addConfigPropertyIndex == start + Count(next)
      ensures config.Keys <= r.Keys
      ensures TaskPlugin.OptPassword in r && TaskPlugin.OptSymbolApiKey in r
    {
      r, next := DeclareOptions6(config, done, base, start);
      r, next := DeclareOptions7(r, next, base, start);
      r, next := DeclareOptions8(r, next, base, start);
      r, next := DeclareOptions9(r, next, base, start);
      r, next := DeclareOptions10(r, next, base, start);
    }

    /** The calls of GetConfigRequest.java:161-194. */
    method DeclareEnvironmentFlags(config: map<string, Property>, ghost done: Trail,
                                   ghost base: map<string, Property>, ghost start: int)
      returns (r: map<string, Property>, ghost next: Trail)
      modifies this
      requires config == Declared(done, base, start) && addConfigPropertyIndex == start + Count(done)
      ensures next == EnvironmentFlags(done)
      ensures r == Declared(next, base, start) && addConfigPropertyIndex == start + Count(next)
      ensures config.Keys <= r.Keys
    {
      r, next := DeclareEnvironmentFlags1(config, done, base, start);
      r, next := DeclareEnvironmentFlags2(r, next, base, start);
      r, next := DeclareEnvironmentFlags3(r, next, base, start);
      r, next := DeclareEnvironmentFlags4(r, next, base, start);
      r, next := DeclareEnvironmentFlags5(r, next, base, start);
    }

    /**
     * execute (GetConfigRequest.java:78-198): declares every property in
     * turn; the map it returns is what GoCD receives as JSON.
     */
    method Execute() returns (config: map<string, Property>)
      modifies this
      ensures config == Declared(Declarations(), map[], old(addConfigPropertyIndex))
      ensures addConfigPropertyIndex == old(addConfigPropertyIndex) + Count(Declarations())
      ensures TaskPlugin.CommandProperty in config && TaskPlugin.OptApiKey in config && TaskPlugin.OptPassword in config && TaskPlugin.OptSymbolApiKey in config
    {
      ghost var start := addConfigPropertyIndex;
      ghost var done := Start;
      config := map[];
      config, done := DeclareArgumentsAndOptions(config, done, map[], start);
      config, done := DeclareEnvironmentFlags(config, done, map[], start);
    }
  }

  /**
   * The configuration request of the plugin (TaskPlugin.java:725): a fresh
   * object, so display orders count 0, 1, 2, ... in declaration order.
   */
  method GetConfiguration() returns (config: map<string, Property>)
    ensures config == Declared(Declarations(), map[], 0)
    ensures ConventionalConfiguration(config)
    ensures TaskPlugin.CommandProperty in config && TaskPlugin.OptApiKey in config && TaskPlugin.OptPassword in config && TaskPlugin.OptSymbolApiKey in config
  {
    var request := new GetConfigRequest();
    config := request.Execute();
    DeclarationsConventional();
    DeclaredConventional(Declarations(), map[], 0);
  }
}
