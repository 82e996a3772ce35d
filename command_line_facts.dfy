/**
 * What createNuGetProcessWithOptions promises about the list it builds:
 * the fixed prefix, the positional arguments of each command, when
 * building fails, when the environments matter, and the options the config
 * command takes.
 */
module CommandLineFacts {
  import opened Wrappers
  import opened TaskPlugin
  import opened TaskConfiguration
  import opened NuGetOptions
  import opened NuGetTaskExecutor

  /** Considering options only appends: the list it started from stays in front. */
  lemma {:induction false} EmitAllExtendsBase(t: Trail, command: string, cfg: TaskConfig, envs: Environments, base: seq<Word>)
    ensures |EmitAll(t, command, cfg, envs, base)| >= |base|
    ensures EmitAll(t, command, cfg, envs, base)[..|base|] == base
  {
    match t
    case Start =>
    case Then(before, o) =>
      EmitAllExtendsBase(before, command, cfg, envs, base);
    case Guarded(before, guard, body) =>
      EmitAllExtendsBase(before, command, cfg, envs, base);
      var outer := EmitAll(before, command, cfg, envs, base);
      EmitAllExtendsBase(body, command, cfg, envs, outer);
      assert outer[..|base|] == base;
  }

  /**
   * The positional arguments in order: the list exists exactly when every
   * argument can be computed, and then holds one word per key; a failure
   * is always the NullPointerException of a null FromEnv argument.
   */
  lemma {:induction false} ArgumentWordsMeaning(keys: seq<string>, cfg: TaskConfig, envs: Environments)
    ensures ArgumentWords(keys, cfg, envs).Success? <==>
      forall i :: 0 <= i < |keys| ==> ArgumentWord(keys[i], cfg, envs).Success?
    ensures ArgumentWords(keys, cfg, envs).Success? ==>
      |ArgumentWords(keys, cfg, envs).value| == |keys| &&
      forall i :: 0 <= i < |keys| ==> ArgumentWords(keys, cfg, envs).value[i] == ArgumentWord(keys[i], cfg, envs).value
    ensures ArgumentWords(keys, cfg, envs).Failure? ==> ArgumentWords(keys, cfg, envs).error == NullPointerException
    decreases |keys|
  {
    if keys != [] {
      ArgumentWordsMeaning(keys[1..], cfg, envs);
      var first := ArgumentWord(keys[0], cfg, envs);
      if first.Success? && ArgumentWords(keys[1..], cfg, envs).Success? {
        forall i | 0 <= i < |keys| ensures ArgumentWords(keys, cfg, envs).value[i] == ArgumentWord(keys[i], cfg, envs).value {
          if i > 0 {
            assert keys[1..][i - 1] == keys[i];
          }
        }
      } else if first.Success? {
        var j :| 0 <= j < |keys[1..]| && ArgumentWord(keys[1..][j], cfg, envs).Failure?;
        assert ArgumentWord(keys[j + 1], cfg, envs).Failure?;
      }
    }
  }

  /** The positional arguments of each command, command by command. */
  function PositionalKeys(c: Command): seq<string>
  {
    match c
    case Install => [ArgPackageIdOrFilePath]
    case Pack => [ArgPackageIdOrFilePath]
    case Push => [ArgPackageIdOrFilePath]
    case Config => []
    case Restore => [ArgPackageIdOrFilePath]
    case SetApiKey => [ArgKey]
    case Add => [ArgPackageIdOrFilePath]
    case Delete => [ArgPackageIdOrFilePath, ArgPackageVersion]
    case Init => [ArgSource, ArgDestination]
    case Sources => [ArgOperation]
    case Update => [ArgPackageIdOrFilePath]
  }

  /**
   * The if-chain of the builder agrees with the per-command table, and a
   * token that is no command takes no positional argument.
   */
  lemma ArgumentKeysByCommand(command: string)
    ensures ArgumentKeysOf(command) ==
      if Parse(command).Some? then PositionalKeys(Parse(command).value) else []
  {
    if Parse(command).Some? {
      ParseToken(Parse(command).value);
    }
  }

  /**
   * Whatever the order of the options, the list starts with "nuget", the
   * command verbatim and one word per positional argument, followed by
   * -NonInteractive.
   */
  lemma ArgumentListPrefix(t: Trail, cfg: TaskConfig, envs: Environments)
    requires CommandLineAlong(t, cfg, envs).Success?
    ensures cfg.command.Some?
    ensures var r := CommandLineAlong(t, cfg, envs).value;
      var keys := ArgumentKeysOf(cfg.command.value);
      |r| >= |keys| + 3 &&
      r[0] == Some("nuget") && r[1] == cfg.command &&
      (forall i :: 0 <= i < |keys| ==>
        ArgumentWord(keys[i], cfg, envs).Success? && r[i + 2] == ArgumentWord(keys[i], cfg, envs).value) &&
      r[|keys| + 2] == Some("-NonInteractive")
  {
    var c := cfg.command.value;
    var keys := ArgumentKeysOf(c);
    ArgumentWordsMeaning(keys, cfg, envs);
    var args := ArgumentWords(keys, cfg, envs).value;
    var base := [Some("nuget"), Some(c)] + args + [Some("-NonInteractive")];
    EmitAllExtendsBase(t, c, cfg, envs, base);
    BasePositions(CommandLineAlong(t, cfg, envs).value, c, args);
  }

  /** Where each piece of the fixed part of the list sits in a list that starts with it. */
  lemma BasePositions(r: seq<Word>, c: string, args: seq<Word>)
    requires var base := [Some("nuget"), Some(c)] + args + [Some("-NonInteractive")];
      |r| >= |base| && r[..|base|] == base
    ensures |r| >= |args| + 3 && r[0] == Some("nuget") && r[1] == Some(c) && r[|args| + 2] == Some("-NonInteractive")
    ensures forall i :: 0 <= i < |args| ==> r[i + 2] == args[i]
  {
    var base := [Some("nuget"), Some(c)] + args + [Some("-NonInteractive")];
    forall i | 0 <= i < |args| ensures r[i + 2] == args[i] {
      assert r[i + 2] == base[i + 2];
    }
    assert r[|args| + 2] == base[|args| + 2];
  }

  /**
   * Whatever the order of the options, building fails exactly when the
   * command is null or a positional argument read from the environment is
   * null, and then with a NullPointerException.
   */
  lemma ArgumentListFailure(t: Trail, cfg: TaskConfig, envs: Environments)
    ensures CommandLineAlong(t, cfg, envs).Failure? <==>
      cfg.command.None? ||
      exists k :: k in ArgumentKeysOf(cfg.command.value) && cfg.Switch(FromEnv(k)) && cfg.Value(k).None?
    ensures CommandLineAlong(t, cfg, envs).Failure? ==> CommandLineAlong(t, cfg, envs).error == NullPointerException
  {
    if cfg.command.Some? {
      var keys := ArgumentKeysOf(cfg.command.value);
      ArgumentWordsMeaning(keys, cfg, envs);
      if ArgumentWords(keys, cfg, envs).Failure? {
        var i :| 0 <= i < |keys| && ArgumentWord(keys[i], cfg, envs).Failure?;
        assert keys[i] in keys;
      } else {
        forall k | k in keys ensures !(cfg.Switch(FromEnv(k)) && cfg.Value(k).None?) {
          var i :| 0 <= i < |keys| && keys[i] == k;
          assert ArgumentWord(keys[i], cfg, envs).Success?;
        }
      }
    }
  }


  /** No FromEnv flag is set. */
  ghost predicate ReadsNoEnvironment(cfg: TaskConfig)
  {
    forall k :: !cfg.Switch(FromEnv(k))
  }

  /** Without FromEnv flags every option is written from its raw value, whatever the environments hold. */
  lemma {:induction false} EmitAllIgnoresEnvironments(t: Trail, command: string, cfg: TaskConfig,
                                                     envs1: Environments, envs2: Environments, base: seq<Word>)
    requires ReadsNoEnvironment(cfg)
    ensures EmitAll(t, command, cfg, envs1, base) == EmitAll(t, command, cfg, envs2, base)
  {
    match t
    case Start =>
    case Then(before, o) =>
      EmitAllIgnoresEnvironments(before, command, cfg, envs1, envs2, base);
      assert !cfg.Switch(FromEnv(o.Key()));
    case Guarded(before, guard, body) =>
      EmitAllIgnoresEnvironments(before, command, cfg, envs1, envs2, base);
      EmitAllIgnoresEnvironments(body, command, cfg, envs1, envs2, EmitAll(before, command, cfg, envs1, base));
  }

  /** Without FromEnv flags the argument list does not depend on the environments, whatever the order of the options. */
  lemma ArgumentListIgnoresEnvironments(t: Trail, cfg: TaskConfig, envs1: Environments, envs2: Environments)
    requires ReadsNoEnvironment(cfg)
    ensures CommandLineAlong(t, cfg, envs1) == CommandLineAlong(t, cfg, envs2)
  {
    if cfg.command.Some? {
      var c := cfg.command.value;
      var keys := ArgumentKeysOf(c);
      ArgumentWordsMeaning(keys, cfg, envs1);
      ArgumentWordsMeaning(keys, cfg, envs2);
      forall i | 0 <= i < |keys| ensures ArgumentWord(keys[i], cfg, envs1) == ArgumentWord(keys[i], cfg, envs2) {
        assert !cfg.Switch(FromEnv(keys[i]));
      }
      var a1, a2 := ArgumentWords(keys, cfg, envs1), ArgumentWords(keys, cfg, envs2);
      assert a1.Success? && a2.Success?;
      assert a1.value == a2.value;
      var base := [Some("nuget"), Some(c)] + a1.value + [Some("-NonInteractive")];
      EmitAllIgnoresEnvironments(t, c, cfg, envs1, envs2, base);
    }
  }


  /**
   * A switch writes its flag alone exactly when it is set; a valued option
   * writes its flag and a value exactly when its value is neither null nor
   * empty (a value of blanks included), and the value is the raw one unless
   * the option may be expanded and its FromEnv flag is set.
   */
  lemma OptionWords(o: OptionSpec, cfg: TaskConfig, envs: Environments)
    ensures o.kind.Switch? ==>
      Contribution(o, cfg, envs) == if cfg.Switch(o.Key()) then [Some(o.Flag())] else []
    ensures o.kind.Valued? ==>
      (Contribution(o, cfg, envs) != [] <==> cfg.Value(o.Key()).Some? && cfg.Value(o.Key()).value != "")
    ensures o.kind.Valued? && Contribution(o, cfg, envs) != [] ==>
      |Contribution(o, cfg, envs)| == 2 && Contribution(o, cfg, envs)[0] == Some(o.Flag())
    ensures o.kind.Valued? && Contribution(o, cfg, envs) != [] && !(o.kind.expandable && cfg.Switch(FromEnv(o.Key()))) ==>
      Contribution(o, cfg, envs)[1] == cfg.Value(o.Key())
  {
  }

  /**
   * -Verbosity, -DependencyVersion, -PackageSaveMode, -SymbolPackageFormat,
   * -Format and -FileConflictAction are written from their raw values even
   * when a FromEnv flag of the same name is set.
   */
  lemma NeverExpandedOptions(o: OptionSpec, cfg: TaskConfig, envs: Environments)
    requires o == Verbosity || o == DependencyVersion || o == PackageSaveMode ||
             o == SymbolPackageFormat || o == Format || o == FileConflictAction
    ensures Contribution(o, cfg, envs) ==
      if Populated(cfg.Value(o.Key())) then [Some(o.Flag()), cfg.Value(o.Key())] else []
  {
  }

  /** Config is in none of the guards of the -Version, -Source, output-directory and install-only blocks (NuGetTaskExecutor.java:171-211). */
  lemma ConfigSkipsFirstBlocks(t: Trail, cfg: TaskConfig, envs: Environments, base: seq<Word>)
    ensures EmitAll(
      Guarded(Guarded(Guarded(Guarded(t,
        InstallPackUpdate, InstallPackUpdateOptions()),
        InstallPushRestoreSetApiKeyAddDeleteSourcesUpdate, SourceOptions()),
        InstallPackRestore, InstallPackRestoreOptions()),
        {Install}, InstallOptions()),
      "config", cfg, envs, base) == EmitAll(t, "config", cfg, envs, base)
  {
    assert Parse("config") == Some(Config);
    var u := t;
    u := Guarded(u, InstallPackUpdate, InstallPackUpdateOptions());
    assert EmitAll(u, "config", cfg, envs, base) == EmitAll(t, "config", cfg, envs, base);
    u := Guarded(u, InstallPushRestoreSetApiKeyAddDeleteSourcesUpdate, SourceOptions());
    assert EmitAll(u, "config", cfg, envs, base) == EmitAll(t, "config", cfg, envs, base);
    u := Guarded(u, InstallPackRestore, InstallPackRestoreOptions());
    assert EmitAll(u, "config", cfg, envs, base) == EmitAll(t, "config", cfg, envs, base);
    u := Guarded(u, {Install}, InstallOptions());
    assert EmitAll(u, "config", cfg, envs, base) == EmitAll(t, "config", cfg, envs, base);
  }

  /** Config is in none of the guards of the pack-only, install/restore, install/update and pack/restore/update blocks (NuGetTaskExecutor.java:213-341). */
  lemma ConfigSkipsPackBlocks(t: Trail, cfg: TaskConfig, envs: Environments, base: seq<Word>)
    ensures EmitAll(
      Guarded(Guarded(Guarded(Guarded(t,
        {Pack}, PackOptions()),
        InstallRestore, InstallRestoreOptions()),
        InstallUpdate, InstallUpdateOptions()),
        PackRestoreUpdate, PackRestoreUpdateOptions()),
      "config", cfg, envs, base) == EmitAll(t, "config", cfg, envs, base)
  {
    assert Parse("config") == Some(Config);
    var u := t;
    u := Guarded(u, {Pack}, PackOptions());
    assert EmitAll(u, "config", cfg, envs, base) == EmitAll(t, "config", cfg, envs, base);
    u := Guarded(u, InstallRestore, InstallRestoreOptions());
    assert EmitAll(u, "config", cfg, envs, base) == EmitAll(t, "config", cfg, envs, base);
    u := Guarded(u, InstallUpdate, InstallUpdateOptions());
    assert EmitAll(u, "config", cfg, envs, base) == EmitAll(t, "config", cfg, envs, base);
    u := Guarded(u, PackRestoreUpdate, PackRestoreUpdateOptions());
    assert EmitAll(u, "config", cfg, envs, base) == EmitAll(t, "config", cfg, envs, base);
  }

  /** Config is in none of the guards of the pack/restore, push/delete and push-only blocks (NuGetTaskExecutor.java:343-393). */
  lemma ConfigSkipsPushBlocks(t: Trail, cfg: TaskConfig, envs: Environments, base: seq<Word>)
    ensures EmitAll(
      Guarded(Guarded(Guarded(t,
        PackRestore, PackRestoreOptions()),
        PushDelete, PushDeleteOptions()),
        {Push}, PushOptions()),
      "config", cfg, envs, base) == EmitAll(t, "config", cfg, envs, base)
  {
    assert Parse("config") == Some(Config);
    var u := t;
    u := Guarded(u, PackRestore, PackRestoreOptions());
    assert EmitAll(u, "config", cfg, envs, base) == EmitAll(t, "config", cfg, envs, base);
    u := Guarded(u, PushDelete, PushDeleteOptions());
    assert EmitAll(u, "config", cfg, envs, base) == EmitAll(t, "config", cfg, envs, base);
    u := Guarded(u, {Push}, PushOptions());
    assert EmitAll(u, "config", cfg, envs, base) == EmitAll(t, "config", cfg, envs, base);
  }

  /** Config is in none of the guards of the restore-only, add/init, delete-only, sources-only and update-only blocks (NuGetTaskExecutor.java:409-527). */
  lemma ConfigSkipsLaterBlocks(t: Trail, cfg: TaskConfig, envs: Environments, base: seq<Word>)
    ensures EmitAll(
      Guarded(Guarded(Guarded(Guarded(Guarded(t,
        {Restore}, RestoreOptions()),
        AddInit, AddInitOptions()),
        {Delete}, DeleteOptions()),
        {Sources}, SourcesOptions()),
        {Update}, UpdateOptions()),
      "config", cfg, envs, base) == EmitAll(t, "config", cfg, envs, base)
  {
    assert Parse("config") == Some(Config);
    var u := t;
    u := Guarded(u, {Restore}, RestoreOptions());
    assert EmitAll(u, "config", cfg, envs, base) == EmitAll(t, "config", cfg, envs, base);
    u := Guarded(u, AddInit, AddInitOptions());
    assert EmitAll(u, "config", cfg, envs, base) == EmitAll(t, "config", cfg, envs, base);
    u := Guarded(u, {Delete}, DeleteOptions());
    assert EmitAll(u, "config", cfg, envs, base) == EmitAll(t, "config", cfg, envs, base);
    u := Guarded(u, {Sources}, SourcesOptions());
    assert EmitAll(u, "config", cfg, envs, base) == EmitAll(t, "config", cfg, envs, base);
    u := Guarded(u, {Update}, UpdateOptions());
    assert EmitAll(u, "config", cfg, envs, base) == EmitAll(t, "config", cfg, envs, base);
  }

  /** The config-only block (NuGetTaskExecutor.java:395-407) writes -Set and then -AsPath. */
  lemma ConfigTakesConfigBlock(t: Trail, cfg: TaskConfig, envs: Environments, base: seq<Word>)
    ensures EmitAll(Guarded(t, {Config}, ConfigOptions()), "config", cfg, envs, base)
      == EmitAll(t, "config", cfg, envs, base) + Contribution(Set, cfg, envs) + Contribution(AsPath, cfg, envs)
  {
    assert Parse("config") == Some(Config);
    var outer := EmitAll(t, "config", cfg, envs, base);
    assert EmitAll(Then(Start, Set), "config", cfg, envs, outer) == outer + Contribution(Set, cfg, envs);
  }

  /** The options config takes, in order: -ConfigFile, -ForceEnglishOutput, -Verbosity, -Set and -AsPath. */
  lemma ConfigCommandOptions(cfg: TaskConfig, envs: Environments, base: seq<Word>)
    ensures WithOptions("config", cfg, envs, base) == base
      + Contribution(ConfigFile, cfg, envs)
      + Contribution(ForceEnglishOutput, cfg, envs)
      + Contribution(Verbosity, cfg, envs)
      + Contribution(Set, cfg, envs)
      + Contribution(AsPath, cfg, envs)
  {
    var t := Then(Start, ConfigFile);
    assert EmitAll(t, "config", cfg, envs, base) == base + Contribution(ConfigFile, cfg, envs);
    t := Then(Then(t, ForceEnglishOutput), Verbosity);
    ConfigSkipsFirstBlocks(t, cfg, envs, base);
    t := Guarded(Guarded(Guarded(Guarded(t,
        InstallPackUpdate, InstallPackUpdateOptions()),
        InstallPushRestoreSetApiKeyAddDeleteSourcesUpdate, SourceOptions()),
        InstallPackRestore, InstallPackRestoreOptions()),
        {Install}, InstallOptions());
    ConfigSkipsPackBlocks(t, cfg, envs, base);
    t := Guarded(Guarded(Guarded(Guarded(t,
        {Pack}, PackOptions()),
        InstallRestore, InstallRestoreOptions()),
        InstallUpdate, InstallUpdateOptions()),
        PackRestoreUpdate, PackRestoreUpdateOptions());
    ConfigSkipsPushBlocks(t, cfg, envs, base);
    t := Guarded(Guarded(Guarded(t,
        PackRestore, PackRestoreOptions()),
        PushDelete, PushDeleteOptions()),
        {Push}, PushOptions());
    ConfigTakesConfigBlock(t, cfg, envs, base);
    t := Guarded(t, {Config}, ConfigOptions());
    ConfigSkipsLaterBlocks(t, cfg, envs, base);
    t := Guarded(Guarded(Guarded(Guarded(Guarded(t,
        {Restore}, RestoreOptions()),
        AddInit, AddInitOptions()),
        {Delete}, DeleteOptions()),
        {Sources}, SourcesOptions()),
        {Update}, UpdateOptions());
    assert t == EmissionOrder();
  }

  /**
   * For config, the only words after the command are -NonInteractive and
   * those of -ConfigFile, -ForceEnglishOutput, -Verbosity, -Set and -AsPath,
   * in that order.
   */
  lemma ConfigCommandLine(cfg: TaskConfig, envs: Environments)
    requires cfg.command == Some("config")
    ensures CommandLine(cfg, envs) == Success([Some("nuget"), Some("config"), Some("-NonInteractive")]
      + Contribution(ConfigFile, cfg, envs)
      + Contribution(ForceEnglishOutput, cfg, envs)
      + Contribution(Verbosity, cfg, envs)
      + Contribution(Set, cfg, envs)
      + Contribution(AsPath, cfg, envs))
  {
    assert ArgumentKeysOf("config") == [];
    assert [Some("nuget"), Some("config")] + [] + [Some("-NonInteractive")] == [Some("nuget"), Some("config"), Some("-NonInteractive")];
    ConfigCommandOptions(cfg, envs, [Some("nuget"), Some("config"), Some("-NonInteractive")]);
  }

  /** The configuration of a config task that only sets one NuGet setting. */
  function SetOnly(setting: string): TaskConfig
  {
    TaskConfig(Some("config"), map[OptSet := Some(setting)], map[])
  }

  /** With only the setting given, -Set is the only option config writes. */
  lemma SetOnlyContributions(setting: string, envs: Environments)
    ensures Contribution(ConfigFile, SetOnly(setting), envs) == []
    ensures Contribution(ForceEnglishOutput, SetOnly(setting), envs) == []
    ensures Contribution(Verbosity, SetOnly(setting), envs) == []
    ensures Contribution(AsPath, SetOnly(setting), envs) == []
    ensures Contribution(Set, SetOnly(setting), envs) == if setting == "" then [] else [Some("-Set"), Some(setting)]
  {
    assert |ConfigFile.Key()| != |OptSet| && |Verbosity.Key()| != |OptSet| && |AsPath.Key()| != |OptSet|;
    assert Set.Key() == OptSet && Set.Flag() == "-Set";
  }

  /** NuGetTaskExecutorTest.java:107: config with -Set test_config=test_value. */
  lemma ConfigSetExample(envs: Environments)
    ensures CommandLine(SetOnly("test_config=test_value"), envs) ==
      Success([Some("nuget"), Some("config"), Some("-NonInteractive"), Some("-Set"), Some("test_config=test_value")])
  {
    var cfg := SetOnly("test_config=test_value");
    ConfigCommandLine(cfg, envs);
    SetOnlyContributions("test_config=test_value", envs);
    var prefix: seq<Word> := [Some("nuget"), Some("config"), Some("-NonInteractive")];
    var setting: seq<Word> := [Some("-Set"), Some("test_config=test_value")];
    assert CommandLine(cfg, envs).value == prefix + [] + [] + [] + setting + [];
    assert prefix + [] + [] + [] + setting + [] == prefix + setting;
    assert prefix + setting == [Some("nuget"), Some("config"), Some("-NonInteractive"), Some("-Set"), Some("test_config=test_value")];
  }

  /** NuGetTaskExecutorTest.java:127: a setting with an empty value after the = is still written. */
  lemma ConfigSetEmptyValueExample(envs: Environments)
    ensures CommandLine(SetOnly("test_config="), envs) ==
      Success([Some("nuget"), Some("config"), Some("-NonInteractive"), Some("-Set"), Some("test_config=")])
  {
    var cfg := SetOnly("test_config=");
    ConfigCommandLine(cfg, envs);
    SetOnlyContributions("test_config=", envs);
    var prefix: seq<Word> := [Some("nuget"), Some("config"), Some("-NonInteractive")];
    var setting: seq<Word> := [Some("-Set"), Some("test_config=")];
    assert CommandLine(cfg, envs).value == prefix + [] + [] + [] + setting + [];
    assert prefix + [] + [] + [] + setting + [] == prefix + setting;
    assert prefix + setting == [Some("nuget"), Some("config"), Some("-NonInteractive"), Some("-Set"), Some("test_config=")];
  }

  /** The options a trail writes for a command, in order: those of the blocks whose guards contain it. */
  function ActiveOptions(t: Trail, command: string): seq<OptionSpec>
  {
    match t
    case Start => []
    case Then(before, o) => ActiveOptions(before, command) + [o]
    case Guarded(before, guard, body) =>
      ActiveOptions(before, command) + (if Contains(guard, command) then ActiveOptions(body, command) else [])
  }

  /** The words of a sequence of options, written one option after the other. */
  function Contributions(os: seq<OptionSpec>, cfg: TaskConfig, envs: Environments): seq<Word>
    decreases |os|
  {
    if os == [] then []
    else Contributions(os[..|os| - 1], cfg, envs) + Contribution(os[|os| - 1], cfg, envs)
  }

  /** The words of two sequences of options are those of the first followed by those of the second. */
  lemma {:induction false} ContributionsAppend(a: seq<OptionSpec>, b: seq<OptionSpec>, cfg: TaskConfig, envs: Environments)
    ensures Contributions(a + b, cfg, envs) == Contributions(a, cfg, envs) + Contributions(b, cfg, envs)
    decreases |b|
  {
    if b == [] {
      assert a + b == a;
    } else {
      var front := b[..|b| - 1];
      ContributionsAppend(a, front, cfg, envs);
      assert (a + b)[..|a + b| - 1] == a + front;
      assert (a + b)[|a + b| - 1] == b[|b| - 1];
    }
  }

  /** Considering a trail appends exactly the words of its active options to the list. */
  lemma {:induction false} EmitAllWritesActiveOptions(t: Trail, command: string, cfg: TaskConfig,
                                                      envs: Environments, base: seq<Word>)
    ensures EmitAll(t, command, cfg, envs, base) == base + Contributions(ActiveOptions(t, command), cfg, envs)
  {
    match t
    case Start =>
    case Then(before, o) =>
      EmitAllWritesActiveOptions(before, command, cfg, envs, base);
      ThenWritesOption(before, o, command, cfg, envs, base);
    case Guarded(before, guard, body) =>
      EmitAllWritesActiveOptions(before, command, cfg, envs, base);
      EmitAllWritesActiveOptions(body, command, cfg, envs, EmitAll(before, command, cfg, envs, base));
      GuardedWritesBlock(before, guard, body, command, cfg, envs, base);
  }

  /** One more option appends its own words after those of the options before it. */
  lemma ThenWritesOption(before: Trail, o: OptionSpec, command: string, cfg: TaskConfig,
                         envs: Environments, base: seq<Word>)
    requires EmitAll(before, command, cfg, envs, base) == base + Contributions(ActiveOptions(before, command), cfg, envs)
    ensures EmitAll(Then(before, o), command, cfg, envs, base) ==
      base + Contributions(ActiveOptions(Then(before, o), command), cfg, envs)
  {
    var earlier := Contributions(ActiveOptions(before, command), cfg, envs);
    ContributionsAppend(ActiveOptions(before, command), [o], cfg, envs);
    ContributionsOfOne(o, cfg, envs);
    ConcatAssociates(base, earlier, Contribution(o, cfg, envs));
  }

  /** A block appends the words of its options when its guard contains the command, and nothing otherwise. */
  lemma GuardedWritesBlock(before: Trail, guard: set<Command>, body: Trail, command: string, cfg: TaskConfig,
                           envs: Environments, base: seq<Word>)
    requires EmitAll(before, command, cfg, envs, base) == base + Contributions(ActiveOptions(before, command), cfg, envs)
    requires var outer := EmitAll(before, command, cfg, envs, base);
      EmitAll(body, command, cfg, envs, outer) == outer + Contributions(ActiveOptions(body, command), cfg, envs)
    ensures EmitAll(Guarded(before, guard, body), command, cfg, envs, base) ==
      base + Contributions(ActiveOptions(Guarded(before, guard, body), command), cfg, envs)
  {
    var earlier := Contributions(ActiveOptions(before, command), cfg, envs);
    if Contains(guard, command) {
      ContributionsAppend(ActiveOptions(before, command), ActiveOptions(body, command), cfg, envs);
      var inner := Contributions(ActiveOptions(body, command), cfg, envs);
      ConcatAssociates(base, earlier, inner);
    } else {
      assert ActiveOptions(Guarded(before, guard, body), command) == ActiveOptions(before, command) + []
          == ActiveOptions(before, command);
      assert EmitAll(Guarded(before, guard, body), command, cfg, envs, base) == EmitAll(before, command, cfg, envs, base);
    }
  }

  /**
   * Regrouping a concatenation, kept apart so that the lemmas about whole
   * option lists do not re-derive it inside their larger proofs.
   */
  lemma ConcatAssociates(a: seq<Word>, b: seq<Word>, c: seq<Word>)
    ensures a + b + c == a + (b + c)
  {
  }

  /** The words of a single option are its contribution. */
  lemma ContributionsOfOne(o: OptionSpec, cfg: TaskConfig, envs: Environments)
    ensures Contributions([o], cfg, envs) == Contribution(o, cfg, envs)
  {
    assert [o][..0] == [];
  }

  /** Guards enclosing an option, outermost first. */
  type Guards = seq<set<Command>>

  /** Every option of a trail, in order, with the guards of the blocks that enclose it. */
  function Placed(t: Trail): seq<(OptionSpec, Guards)>
  {
    match t
    case Start => []
    case Then(before, o) => Placed(before) + [(o, [])]
    case Guarded(before, guard, body) => Placed(before) + Within(guard, Placed(body))
  }

  /** The same options, each enclosed by one more guard. */
  function Within(guard: set<Command>, ps: seq<(OptionSpec, Guards)>): (r: seq<(OptionSpec, Guards)>)
    ensures |r| == |ps|
    ensures forall i :: 0 <= i < |ps| ==> r[i] == (ps[i].0, [guard] + ps[i].1)
  {
    if ps == [] then [] else [(ps[0].0, [guard] + ps[0].1)] + Within(guard, ps[1..])
  }

  /** Every one of the guards contains the command. */
  predicate Admits(guards: Guards, command: string)
  {
    forall j :: 0 <= j < |guards| ==> Contains(guards[j], command)
  }

  /** The options whose guards all contain the command, in order. */
  function Select(ps: seq<(OptionSpec, Guards)>, command: string): seq<OptionSpec>
  {
    if ps == [] then []
    else (if Admits(ps[0].1, command) then [ps[0].0] else []) + Select(ps[1..], command)
  }

  /** An option is selected exactly when one of its placements has all its guards containing the command. */
  lemma {:induction false} SelectMembers(ps: seq<(OptionSpec, Guards)>, command: string, o: OptionSpec)
    ensures o in Select(ps, command) <==> exists i :: 0 <= i < |ps| && ps[i].0 == o && Admits(ps[i].1, command)
  {
    if ps != [] {
      SelectMembers(ps[1..], command, o);
      if exists i :: 0 <= i < |ps[1..]| && ps[1..][i].0 == o && Admits(ps[1..][i].1, command) {
        var i :| 0 <= i < |ps[1..]| && ps[1..][i].0 == o && Admits(ps[1..][i].1, command);
        assert ps[i + 1] == ps[1..][i];
      }
      if exists i :: 0 <= i < |ps| && ps[i].0 == o && Admits(ps[i].1, command) {
        var i :| 0 <= i < |ps| && ps[i].0 == o && Admits(ps[i].1, command);
        if i > 0 {
          assert ps[1..][i - 1] == ps[i];
        }
      }
    }
  }

  lemma {:induction false} SelectAppend(a: seq<(OptionSpec, Guards)>, b: seq<(OptionSpec, Guards)>, command: string)
    ensures Select(a + b, command) == Select(a, command) + Select(b, command)
    decreases |a|
  {
    if a == [] {
      assert a + b == b;
    } else {
      var ab := a + b;
      assert ab[0] == a[0] && ab[1..] == a[1..] + b;
      SelectAppend(a[1..], b, command);
      var head := if Admits(a[0].1, command) then [a[0].0] else [];
      assert Select(ab, command) == head + Select(ab[1..], command);
      assert Select(a, command) == head + Select(a[1..], command);
      assert head + (Select(a[1..], command) + Select(b, command)) == (head + Select(a[1..], command)) + Select(b, command);
    }
  }

  /** One more enclosing guard admits the command exactly when it and the others all do. */
  lemma AdmitsOneMore(guard: set<Command>, guards: Guards, command: string)
    ensures Admits([guard] + guards, command) <==> Contains(guard, command) && Admits(guards, command)
  {
    var gs := [guard] + guards;
    if Admits(gs, command) {
      assert gs[0] == guard;
      forall j | 0 <= j < |guards| ensures Contains(guards[j], command) {
        assert gs[j + 1] == guards[j];
      }
    }
    if Contains(guard, command) && Admits(guards, command) {
      forall j | 0 <= j < |gs| ensures Contains(gs[j], command) {
        if j > 0 {
          assert gs[j] == guards[j - 1];
        }
      }
    }
  }

  lemma {:induction false} SelectWithin(guard: set<Command>, ps: seq<(OptionSpec, Guards)>, command: string)
    ensures Select(Within(guard, ps), command) == if Contains(guard, command) then Select(ps, command) else []
    decreases |ps|
  {
    if ps != [] {
      var w := Within(guard, ps);
      assert w[0] == (ps[0].0, [guard] + ps[0].1) && w[1..] == Within(guard, ps[1..]);
      SelectWithin(guard, ps[1..], command);
      AdmitsOneMore(guard, ps[0].1, command);
    }
  }

  /**
   * A trail writes, for a command, exactly its options whose enclosing
   * guards all contain the command, in the trail's order.
   */
  lemma {:induction false} ActiveOptionsAreAdmitted(t: Trail, command: string)
    ensures ActiveOptions(t, command) == Select(Placed(t), command)
  {
    match t
    case Start =>
    case Then(before, o) =>
      ActiveOptionsAreAdmitted(before, command);
      SelectAppend(Placed(before), [(o, [])], command);
      assert Select([(o, [])], command) == [o] + [];
    case Guarded(before, guard, body) =>
      ActiveOptionsAreAdmitted(before, command);
      ActiveOptionsAreAdmitted(body, command);
      SelectAppend(Placed(before), Within(guard, Placed(body)), command);
      SelectWithin(guard, Placed(body), command);
      if !Contains(guard, command) {
        assert Select(Placed(before), command) + [] == Select(Placed(before), command);
      }
  }

  /**
   * For every command, the options section of the list is the words of
   * the options whose governing command sets all contain the command, in
   * emission order, and an option is among them exactly when all its
   * governing sets contain the command: an option outside one of its sets
   * writes nothing, whatever its value or switch holds.
   */
  lemma OptionsFollowCommandSets(command: string, cfg: TaskConfig, envs: Environments, base: seq<Word>, o: OptionSpec)
    ensures WithOptions(command, cfg, envs, base) ==
      base + Contributions(Select(Placed(EmissionOrder()), command), cfg, envs)
    ensures o in Select(Placed(EmissionOrder()), command) <==>
      exists i :: 0 <= i < |Placed(EmissionOrder())| &&
        Placed(EmissionOrder())[i].0 == o && Admits(Placed(EmissionOrder())[i].1, command)
  {
    EmitAllWritesActiveOptions(EmissionOrder(), command, cfg, envs, base);
    ActiveOptionsAreAdmitted(EmissionOrder(), command);
    SelectMembers(Placed(EmissionOrder()), command, o);
  }

  /**
   * The whole list, for every command: "nuget", the command, its
   * positional arguments, -NonInteractive, then the words of the options
   * its governing sets admit, in emission order.
   */
  lemma CommandLineShape(cfg: TaskConfig, envs: Environments)
    requires CommandLine(cfg, envs).Success?
    ensures cfg.command.Some?
    ensures var c := cfg.command.value;
      var args := ArgumentWords(ArgumentKeysOf(c), cfg, envs);
      args.Success? &&
      CommandLine(cfg, envs).value == [Some("nuget"), Some(c)] + args.value + [Some("-NonInteractive")]
        + Contributions(Select(Placed(EmissionOrder()), c), cfg, envs)
  {
    var c := cfg.command.value;
    var args := ArgumentWords(ArgumentKeysOf(c), cfg, envs);
    OptionsFollowCommandSets(c, cfg, envs, [Some("nuget"), Some(c)] + args.value + [Some("-NonInteractive")], ConfigFile);
  }

  /**
   * An install task without its package argument builds a list holding
   * null where the package belongs, so the run always throws: starting
   * the process throws NullPointerException unless a refused context
   * variable has already thrown.
   */
  lemma InstallWithoutPackageThrows(envs: Environments, outcome: RunOutcome)
    ensures Execution(TaskConfig(Some("install"), map[], map[]), envs, outcome).Failure?
    ensures ContextError(envs.context).None? ==>
      Execution(TaskConfig(Some("install"), map[], map[]), envs, outcome) == Failure(NullPointerException)
  {
    var cfg := TaskConfig(Some("install"), map[], map[]);
    assert ArgumentKeysOf("install") == [ArgPackageIdOrFilePath] by {
      assert Contains(InstallPackPushRestoreAddDeleteUpdate, "install");
    }
    ArgumentListFailure(EmissionOrder(), cfg, envs);
    ArgumentListPrefix(EmissionOrder(), cfg, envs);
    assert CommandLine(cfg, envs).value[2] == None;
  }
}
