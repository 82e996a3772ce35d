/**
 * NuGetTaskExecutor.createNuGetProcessWithOptions: the argument list of the
 * NuGet process, built from the task configuration and the two
 * environments; and the mapping of the process's exit to the task result.
 */
module NuGetTaskExecutor {
  import opened Wrappers
  import opened TaskPlugin
  import opened TaskConfiguration
  import opened NuGetOptions
  import EnvExpansion

  /** One element of the argument list: the Java list may hold null. */
  type Word = Option<string>

  /** The task context's environment and the agent process's own environment. */
  datatype Environments = Environments(context: EnvExpansion.Environment, process: EnvExpansion.Environment)

  /** String != null && !isEmpty(): a value that is only blanks still counts. */
  predicate Populated(v: Option<string>)
  {
    v.Some? && v.value != ""
  }

  /** The option is written: its switch is set, or its value is populated. */
  predicate Active(o: OptionSpec, cfg: TaskConfig)
  {
    if o.kind.Switch? then cfg.Switch(o.Key()) else Populated(cfg.Value(o.Key()))
  }

  /** The value written after a valued option's flag: expanded when the option allows it and its FromEnv flag is set. */
  function OptionValue(o: OptionSpec, cfg: TaskConfig, envs: Environments): Word
    requires o.kind.Valued? && cfg.Value(o.Key()).Some?
  {
    if o.kind.expandable && cfg.Switch(FromEnv(o.Key()))
    then EnvExpansion.Expand(cfg.Value(o.Key()).value, envs.context, envs.process)
    else cfg.Value(o.Key())
  }

  /** What one option appends to the list. */
  function Contribution(o: OptionSpec, cfg: TaskConfig, envs: Environments): seq<Word>
  {
    if !Active(o, cfg) then []
    else if o.kind.Switch? then [Some(o.Flag())]
    else [Some(o.Flag()), OptionValue(o, cfg, envs)]
  }

  /**
   * The list after the options of a trail have been considered in turn,
   * starting from base; a guarded block is considered only when its
   * command set contains the command.
   */
  function EmitAll(t: Trail, command: string, cfg: TaskConfig, envs: Environments, base: seq<Word>): seq<Word>
  {
    match t
    case Start => base
    case Then(before, o) => EmitAll(before, command, cfg, envs, base) + Contribution(o, cfg, envs)
    case Guarded(before, guard, body) =>
      var outer := EmitAll(before, command, cfg, envs, base);
      if Contains(guard, command) then EmitAll(body, command, cfg, envs, outer) else outer
  }

  /** The list after every option block has been considered, starting from base. */
  function WithOptions(command: string, cfg: TaskConfig, envs: Environments, base: seq<Word>): seq<Word>
  {
    EmitAll(EmissionOrder(), command, cfg, envs, base)
  }

  /** The positional arguments a command takes, by the if-chain of NuGetTaskExecutor.java:134-149. */
  function ArgumentKeysOf(command: string): seq<string>
  {
    if Contains(InstallPackPushRestoreAddDeleteUpdate, command) then
      [ArgPackageIdOrFilePath] + (if command == Token(Delete) then [ArgPackageVersion] else [])
    else if command == Token(SetApiKey) then [ArgKey]
    else if command == Token(Init) then [ArgSource, ArgDestination]
    else if command == Token(Sources) then [ArgOperation]
    else []
  }

  /**
   * One positional argument: the raw value (null included), or its
   * expansion when its FromEnv flag is set, which fails on a null value.
   */
  function ArgumentWord(key: string, cfg: TaskConfig, envs: Environments): Result<Word, JavaException>
  {
    if cfg.Switch(FromEnv(key)) then
      if cfg.Value(key).None? then Failure(NullPointerException)
      else Success(EnvExpansion.Expand(cfg.Value(key).value, envs.context, envs.process))
    else Success(cfg.Value(key))
  }

  /** The positional arguments in order, or the first failure. */
  function ArgumentWords(keys: seq<string>, cfg: TaskConfig, envs: Environments): Result<seq<Word>, JavaException>
  {
    if keys == [] then Success([])
    else
      var first := ArgumentWord(keys[0], cfg, envs);
      var rest := ArgumentWords(keys[1..], cfg, envs);
      if first.Failure? then Failure(first.error)
      else if rest.Failure? then Failure(rest.error)
      else Success([first.value] + rest.value)
  }

  /** A single positional argument: its failure, or its word alone. */
  lemma ArgumentWordsOfOne(key: string, cfg: TaskConfig, envs: Environments)
    ensures ArgumentWords([key], cfg, envs) ==
      if ArgumentWord(key, cfg, envs).Failure? then Failure(ArgumentWord(key, cfg, envs).error)
      else Success([ArgumentWord(key, cfg, envs).value])
  {
    assert [key][1..] == [];
    var w := ArgumentWord(key, cfg, envs);
    if w.Success? {
      assert [w.value] + [] == [w.value];
    }
  }

  /** Two positional arguments: the first failure, or both words. */
  lemma ArgumentWordsOfPair(first: string, second: string, cfg: TaskConfig, envs: Environments)
    ensures ArgumentWords([first, second], cfg, envs) ==
      if ArgumentWord(first, cfg, envs).Failure? then Failure(ArgumentWord(first, cfg, envs).error)
      else if ArgumentWord(second, cfg, envs).Failure? then Failure(ArgumentWord(second, cfg, envs).error)
      else Success([ArgumentWord(first, cfg, envs).value, ArgumentWord(second, cfg, envs).value])
  {
    assert [first, second][1..] == [second];
    ArgumentWordsOfOne(second, cfg, envs);
    var w1, w2 := ArgumentWord(first, cfg, envs), ArgumentWord(second, cfg, envs);
    if w1.Success? && w2.Success? {
      assert [w1.value] + [w2.value] == [w1.value, w2.value];
    }
  }

  /**
   * The whole argument list when the options are considered in the order
   * t: "nuget", the command, its positional arguments, -NonInteractive and
   * then the options. A null command fails when the first command set is
   * asked about it.
   */
  function CommandLineAlong(t: Trail, cfg: TaskConfig, envs: Environments): Result<seq<Word>, JavaException>
  {
    if cfg.command.None? then Failure(NullPointerException)
    else
      var c := cfg.command.value;
      var args := ArgumentWords(ArgumentKeysOf(c), cfg, envs);
      if args.Failure? then Failure(args.error)
      else Success(EmitAll(t, c, cfg, envs, [Some("nuget"), Some(c)] + args.value + [Some("-NonInteractive")]))
  }

  /** The argument list the builder produces: the options in emission order. */
  function CommandLine(cfg: TaskConfig, envs: Environments): Result<seq<Word>, JavaException>
  {
    CommandLineAlong(EmissionOrder(), cfg, envs)
  }

  /** A positional argument as the builder computes it (NuGetTaskExecutor.java:136-148). */
  method ArgumentValue(key: string, cfg: TaskConfig, envs: Environments) returns (r: Result<Word, JavaException>)
    ensures r == ArgumentWord(key, cfg, envs)
  {
    if cfg.Switch(FromEnv(key)) {
      r := EnvExpansion.ExpandEnvVars(envs.context, envs.process, cfg.Value(key));
    } else {
      r := Success(cfg.Value(key));
    }
  }

  /** One option: appends its flag, and its value, when the switch is set or the value populated. */
  method AddOption(cmd: seq<Word>, ghost done: Trail, o: OptionSpec, command: string,
                   cfg: TaskConfig, envs: Environments, ghost base: seq<Word>)
    returns (r: seq<Word>, ghost next: Trail)
    requires cmd == EmitAll(done, command, cfg, envs, base)
    ensures next == Then(done, o)
    ensures r == EmitAll(next, command, cfg, envs, base)
  {
    r := cmd;
    next := Then(done, o);
    match o.kind
    case Switch =>
      if cfg.Switch(o.Key()) {
        r := r + [Some(o.Flag())];
      }
    case Valued(expandable) =>
      var value := cfg.Value(o.Key());
      if value.Some? && value.value != "" {
        r := r + [Some(o.Flag())];
        if expandable && cfg.Switch(FromEnv(o.Key())) {
          var expanded := EnvExpansion.ExpandEnvVars(envs.context, envs.process, value);
          r := r + [expanded.value];
        } else {
          r := r + [value];
        }
      }
  }

  /** The positional arguments block (NuGetTaskExecutor.java:134-149), for a command that is not null. */
  method AddPositionalArguments(cmd: seq<Word>, command: string, cfg: TaskConfig, envs: Environments)
    returns (r: Result<seq<Word>, JavaException>)
    ensures var args := ArgumentWords(ArgumentKeysOf(command), cfg, envs);
      r == if args.Failure? then Failure(args.error) else Success(cmd + args.value)
  {
    if Contains(InstallPackPushRestoreAddDeleteUpdate, command) {
      if command == Token(Delete) {
        ArgumentWordsOfPair(ArgPackageIdOrFilePath, ArgPackageVersion, cfg, envs);
      } else {
        ArgumentWordsOfOne(ArgPackageIdOrFilePath, cfg, envs);
      }
      var a := ArgumentValue(ArgPackageIdOrFilePath, cfg, envs);
      if a.Failure? {
        return Failure(a.error);
      }
      if command == Token(Delete) {
        var v := ArgumentValue(ArgPackageVersion, cfg, envs);
        if v.Failure? {
          return Failure(v.error);
        }
        assert cmd + [a.value] + [v.value] == cmd + [a.value, v.value];
        return Success(cmd + [a.value] + [v.value]);
      }
      return Success(cmd + [a.value]);
    } else if command == Token(SetApiKey) {
      ArgumentWordsOfOne(ArgKey, cfg, envs);
      var k := ArgumentValue(ArgKey, cfg, envs);
      if k.Failure? {
        return Failure(k.error);
      }
      return Success(cmd + [k.value]);
    } else if command == Token(Init) {
      ArgumentWordsOfPair(ArgSource, ArgDestination, cfg, envs);
      var s := ArgumentValue(ArgSource, cfg, envs);
      if s.Failure? {
        return Failure(s.error);
      }
      var d := ArgumentValue(ArgDestination, cfg, envs);
      if d.Failure? {
        return Failure(d.error);
      }
      assert cmd + [s.value] + [d.value] == cmd + [s.value, d.value];
      return Success(cmd + [s.value] + [d.value]);
    } else if command == Token(Sources) {
      ArgumentWordsOfOne(ArgOperation, cfg, envs);
      var op := ArgumentValue(ArgOperation, cfg, envs);
      if op.Failure? {
        return Failure(op.error);
      }
      return Success(cmd + [op.value]);
    }
    assert cmd + [] == cmd;
    return Success(cmd);
  }

  /** NuGetTaskExecutor.java:171-177: the block of InstallPackUpdateOptions. */
  method AddInstallPackUpdateOptions(cmd: seq<Word>, ghost done: Trail, command: string,
                              cfg: TaskConfig, envs: Environments, ghost base: seq<Word>)
    returns (r: seq<Word>, ghost next: Trail)
    requires cmd == EmitAll(done, command, cfg, envs, base)
    ensures next == Guarded(done, InstallPackUpdate, InstallPackUpdateOptions())
    ensures r == EmitAll(next, command, cfg, envs, base)
  {
    r := cmd;
    next := Guarded(done, InstallPackUpdate, InstallPackUpdateOptions());
    if Contains(InstallPackUpdate, command) {
      ghost var body := Start;
      r, body := AddOption(r, body, Version, command, cfg, envs, cmd);
      assert body == InstallPackUpdateOptions();
    }
  }

  /** NuGetTaskExecutor.java:179-185: the block of SourceOptions. */
  method AddSourceOptions(cmd: seq<Word>, ghost done: Trail, command: string,
                   cfg: TaskConfig, envs: Environments, ghost base: seq<Word>)
    returns (r: seq<Word>, ghost next: Trail)
    requires cmd == EmitAll(done, command, cfg, envs, base)
    ensures next == Guarded(done, InstallPushRestoreSetApiKeyAddDeleteSourcesUpdate, SourceOptions())
    ensures r == EmitAll(next, command, cfg, envs, base)
  {
    r := cmd;
    next := Guarded(done, InstallPushRestoreSetApiKeyAddDeleteSourcesUpdate, SourceOptions());
    if Contains(InstallPushRestoreSetApiKeyAddDeleteSourcesUpdate, command) {
      ghost var body := Start;
      r, body := AddOption(r, body, Source, command, cfg, envs, cmd);
      assert body == SourceOptions();
    }
  }

  /** NuGetTaskExecutor.java:187-199: the block of InstallPackRestoreOptions. */
  method AddInstallPackRestoreOptions(cmd: seq<Word>, ghost done: Trail, command: string,
                               cfg: TaskConfig, envs: Environments, ghost base: seq<Word>)
    returns (r: seq<Word>, ghost next: Trail)
    requires cmd == EmitAll(done, command, cfg, envs, base)
    ensures next == Guarded(done, InstallPackRestore, InstallPackRestoreOptions())
    ensures r == EmitAll(next, command, cfg, envs, base)
  {
    r := cmd;
    next := Guarded(done, InstallPackRestore, InstallPackRestoreOptions());
    if Contains(InstallPackRestore, command) {
      ghost var body := Start;
      r, body := AddOption(r, body, OutputDirectory, command, cfg, envs, cmd);
      r, body := AddOption(r, body, SolutionDirectory, command, cfg, envs, cmd);
      assert body == InstallPackRestoreOptions();
    }
  }

  /** NuGetTaskExecutor.java:201-211: the block of InstallOptions. */
  method AddInstallOptions(cmd: seq<Word>, ghost done: Trail, command: string,
                    cfg: TaskConfig, envs: Environments, ghost base: seq<Word>)
    returns (r: seq<Word>, ghost next: Trail)
    requires cmd == EmitAll(done, command, cfg, envs, base)
    ensures next == Guarded(done, {Install}, InstallOptions())
    ensures r == EmitAll(next, command, cfg, envs, base)
  {
    r := cmd;
    next := Guarded(done, {Install}, InstallOptions());
    if Contains({Install}, command) {
      ghost var body := Start;
      r, body := AddOption(r, body, ExcludeVersion, command, cfg, envs, cmd);
      r, body := AddOption(r, body, Framework, command, cfg, envs, cmd);
      assert body == InstallOptions();
    }
  }

  /** NuGetTaskExecutor.java:213-285: the block of PackOptions. */
  method AddPackOptions(cmd: seq<Word>, ghost done: Trail, command: string,
                 cfg: TaskConfig, envs: Environments, ghost base: seq<Word>)
    returns (r: seq<Word>, ghost next: Trail)
    requires cmd == EmitAll(done, command, cfg, envs, base)
    ensures next == Guarded(done, {Pack}, PackOptions())
    ensures r == EmitAll(next, command, cfg, envs, base)
  {
    r := cmd;
    next := Guarded(done, {Pack}, PackOptions());
    if Contains({Pack}, command) {
      ghost var body := Start;
      r, body := AddOption(r, body, BasePath, command, cfg, envs, cmd);
      r, body := AddOption(r, body, Build, command, cfg, envs, cmd);
      r, body := AddOption(r, body, Exclude, command, cfg, envs, cmd);
      r, body := AddOption(r, body, ExcludeEmptyDirectories, command, cfg, envs, cmd);
      r, body := AddOption(r, body, IncludeReferencedProjects, command, cfg, envs, cmd);
      r, body := AddOption(r, body, InstallPackageToOutputPath, command, cfg, envs, cmd);
      r, body := AddOption(r, body, MinClientVersion, command, cfg, envs, cmd);
      r, body := AddOption(r, body, NoDefaultExcludes, command, cfg, envs, cmd);
      r, body := AddOption(r, body, NoPackageAnalysis, command, cfg, envs, cmd);
      r, body := AddOption(r, body, OutputFileNamesWithoutVersion, command, cfg, envs, cmd);
      r, body := AddOption(r, body, Properties, command, cfg, envs, cmd);
      r, body := AddOption(r, body, Suffix, command, cfg, envs, cmd);
      r, body := AddOption(r, body, SymbolPackageFormat, command, cfg, envs, cmd);
      r, body := AddOption(r, body, Symbols, command, cfg, envs, cmd);
      r, body := AddOption(r, body, Tool, command, cfg, envs, cmd);
      assert body == PackOptions();
    }
  }

  /** NuGetTaskExecutor.java:287-315: the block of InstallRestoreOptions. */
  method AddInstallRestoreOptions(cmd: seq<Word>, ghost done: Trail, command: string,
                           cfg: TaskConfig, envs: Environments, ghost base: seq<Word>)
    returns (r: seq<Word>, ghost next: Trail)
    requires cmd == EmitAll(done, command, cfg, envs, base)
    ensures next == Guarded(done, InstallRestore, InstallRestoreOptions())
    ensures r == EmitAll(next, command, cfg, envs, base)
  {
    r := cmd;
    next := Guarded(done, InstallRestore, InstallRestoreOptions());
    if Contains(InstallRestore, command) {
      ghost var body := Start;
      r, body := AddOption(r, body, DirectDownload, command, cfg, envs, cmd);
      r, body := AddOption(r, body, DisableParallelProcessing, command, cfg, envs, cmd);
      r, body := AddOption(r, body, NoHttpCache, command, cfg, envs, cmd);
      r, body := AddOption(r, body, FallbackSource, command, cfg, envs, cmd);
      r, body := AddOption(r, body, PackageSaveMode, command, cfg, envs, cmd);
      r, body := AddOption(r, body, RequireConsent, command, cfg, envs, cmd);
      assert body == InstallRestoreOptions();
    }
  }

  /** NuGetTaskExecutor.java:317-327: the block of InstallUpdateOptions. */
  method AddInstallUpdateOptions(cmd: seq<Word>, ghost done: Trail, command: string,
                          cfg: TaskConfig, envs: Environments, ghost base: seq<Word>)
    returns (r: seq<Word>, ghost next: Trail)
    requires cmd == EmitAll(done, command, cfg, envs, base)
    ensures next == Guarded(done, InstallUpdate, InstallUpdateOptions())
    ensures r == EmitAll(next, command, cfg, envs, base)
  {
    r := cmd;
    next := Guarded(done, InstallUpdate, InstallUpdateOptions());
    if Contains(InstallUpdate, command) {
      ghost var body := Start;
      r, body := AddOption(r, body, DependencyVersion, command, cfg, envs, cmd);
      r, body := AddOption(r, body, PreRelease, command, cfg, envs, cmd);
      assert body == InstallUpdateOptions();
    }
  }

  /** NuGetTaskExecutor.java:329-341: the block of PackRestoreUpdateOptions. */
  method AddPackRestoreUpdateOptions(cmd: seq<Word>, ghost done: Trail, command: string,
                              cfg: TaskConfig, envs: Environments, ghost base: seq<Word>)
    returns (r: seq<Word>, ghost next: Trail)
    requires cmd == EmitAll(done, command, cfg, envs, base)
    ensures next == Guarded(done, PackRestoreUpdate, PackRestoreUpdateOptions())
    ensures r == EmitAll(next, command, cfg, envs, base)
  {
    r := cmd;
    next := Guarded(done, PackRestoreUpdate, PackRestoreUpdateOptions());
    if Contains(PackRestoreUpdate, command) {
      ghost var body := Start;
      r, body := AddOption(r, body, MSBuildPath, command, cfg, envs, cmd);
      r, body := AddOption(r, body, MSBuildVersion, command, cfg, envs, cmd);
      assert body == PackRestoreUpdateOptions();
    }
  }

  /** NuGetTaskExecutor.java:343-349: the block of PackRestoreOptions. */
  method AddPackRestoreOptions(cmd: seq<Word>, ghost done: Trail, command: string,
                        cfg: TaskConfig, envs: Environments, ghost base: seq<Word>)
    returns (r: seq<Word>, ghost next: Trail)
    requires cmd == EmitAll(done, command, cfg, envs, base)
    ensures next == Guarded(done, PackRestore, PackRestoreOptions())
    ensures r == EmitAll(next, command, cfg, envs, base)
  {
    r := cmd;
    next := Guarded(done, PackRestore, PackRestoreOptions());
    if Contains(PackRestore, command) {
      ghost var body := Start;
      r, body := AddOption(r, body, PackagesDirectory, command, cfg, envs, cmd);
      assert body == PackRestoreOptions();
    }
  }

  /** NuGetTaskExecutor.java:351-361: the block of PushDeleteOptions. */
  method AddPushDeleteOptions(cmd: seq<Word>, ghost done: Trail, command: string,
                       cfg: TaskConfig, envs: Environments, ghost base: seq<Word>)
    returns (r: seq<Word>, ghost next: Trail)
    requires cmd == EmitAll(done, command, cfg, envs, base)
    ensures next == Guarded(done, PushDelete, PushDeleteOptions())
    ensures r == EmitAll(next, command, cfg, envs, base)
  {
    r := cmd;
    next := Guarded(done, PushDelete, PushDeleteOptions());
    if Contains(PushDelete, command) {
      ghost var body := Start;
      r, body := AddOption(r, body, ApiKey, command, cfg, envs, cmd);
      r, body := AddOption(r, body, NoServiceEndpoint, command, cfg, envs, cmd);
      assert body == PushDeleteOptions();
    }
  }

  /** NuGetTaskExecutor.java:363-393: the block of PushOptions. */
  method AddPushOptions(cmd: seq<Word>, ghost done: Trail, command: string,
                 cfg: TaskConfig, envs: Environments, ghost base: seq<Word>)
    returns (r: seq<Word>, ghost next: Trail)
    requires cmd == EmitAll(done, command, cfg, envs, base)
    ensures next == Guarded(done, {Push}, PushOptions())
    ensures r == EmitAll(next, command, cfg, envs, base)
  {
    r := cmd;
    next := Guarded(done, {Push}, PushOptions());
    if Contains({Push}, command) {
      ghost var body := Start;
      r, body := AddOption(r, body, DisableBuffering, command, cfg, envs, cmd);
      r, body := AddOption(r, body, NoSymbols, command, cfg, envs, cmd);
      r, body := AddOption(r, body, SkipDuplicate, command, cfg, envs, cmd);
      r, body := AddOption(r, body, SymbolSource, command, cfg, envs, cmd);
      r, body := AddOption(r, body, SymbolApiKey, command, cfg, envs, cmd);
      r, body := AddOption(r, body, Timeout, command, cfg, envs, cmd);
      assert body == PushOptions();
    }
  }

  /** NuGetTaskExecutor.java:395-407: the block of ConfigOptions. */
  method AddConfigOptions(cmd: seq<Word>, ghost done: Trail, command: string,
                   cfg: TaskConfig, envs: Environments, ghost base: seq<Word>)
    returns (r: seq<Word>, ghost next: Trail)
    requires cmd == EmitAll(done, command, cfg, envs, base)
    ensures next == Guarded(done, {Config}, ConfigOptions())
    ensures r == EmitAll(next, command, cfg, envs, base)
  {
    r := cmd;
    next := Guarded(done, {Config}, ConfigOptions());
    if Contains({Config}, command) {
      ghost var body := Start;
      r, body := AddOption(r, body, Set, command, cfg, envs, cmd);
      r, body := AddOption(r, body, AsPath, command, cfg, envs, cmd);
      assert body == ConfigOptions();
    }
  }

  /** NuGetTaskExecutor.java:409-441: the block of RestoreOptions. */
  method AddRestoreOptions(cmd: seq<Word>, ghost done: Trail, command: string,
                    cfg: TaskConfig, envs: Environments, ghost base: seq<Word>)
    returns (r: seq<Word>, ghost next: Trail)
    requires cmd == EmitAll(done, command, cfg, envs, base)
    ensures next == Guarded(done, {Restore}, RestoreOptions())
    ensures r == EmitAll(next, command, cfg, envs, base)
  {
    r := cmd;
    next := Guarded(done, {Restore}, RestoreOptions());
    if Contains({Restore}, command) {
      ghost var body := Start;
      r, body := AddOption(r, body, Force, command, cfg, envs, cmd);
      r, body := AddOption(r, body, ForceEvaluate, command, cfg, envs, cmd);
      r, body := AddOption(r, body, LockFilePath, command, cfg, envs, cmd);
      r, body := AddOption(r, body, LockedMode, command, cfg, envs, cmd);
      r, body := AddOption(r, body, Project2ProjectTimeOut, command, cfg, envs, cmd);
      r, body := AddOption(r, body, Recursive, command, cfg, envs, cmd);
      r, body := AddOption(r, body, UseLockFile, command, cfg, envs, cmd);
      assert body == RestoreOptions();
    }
  }

  /** NuGetTaskExecutor.java:443-447: the block of AddInitOptions. */
  method AddAddInitOptions(cmd: seq<Word>, ghost done: Trail, command: string,
                    cfg: TaskConfig, envs: Environments, ghost base: seq<Word>)
    returns (r: seq<Word>, ghost next: Trail)
    requires cmd == EmitAll(done, command, cfg, envs, base)
    ensures next == Guarded(done, AddInit, AddInitOptions())
    ensures r == EmitAll(next, command, cfg, envs, base)
  {
    r := cmd;
    next := Guarded(done, AddInit, AddInitOptions());
    if Contains(AddInit, command) {
      ghost var body := Start;
      r, body := AddOption(r, body, Expand, command, cfg, envs, cmd);
      assert body == AddInitOptions();
    }
  }

  /** NuGetTaskExecutor.java:449-453: the block of DeleteOptions. */
  method AddDeleteOptions(cmd: seq<Word>, ghost done: Trail, command: string,
                   cfg: TaskConfig, envs: Environments, ghost base: seq<Word>)
    returns (r: seq<Word>, ghost next: Trail)
    requires cmd == EmitAll(done, command, cfg, envs, base)
    ensures next == Guarded(done, {Delete}, DeleteOptions())
    ensures r == EmitAll(next, command, cfg, envs, base)
  {
    r := cmd;
    next := Guarded(done, {Delete}, DeleteOptions());
    if Contains({Delete}, command) {
      ghost var body := Start;
      r, body := AddOption(r, body, NoPrompt, command, cfg, envs, cmd);
      assert body == DeleteOptions();
    }
  }

  /** NuGetTaskExecutor.java:455-499: the block of SourcesOptions. */
  method AddSourcesOptions(cmd: seq<Word>, ghost done: Trail, command: string,
                    cfg: TaskConfig, envs: Environments, ghost base: seq<Word>)
    returns (r: seq<Word>, ghost next: Trail)
    requires cmd == EmitAll(done, command, cfg, envs, base)
    ensures next == Guarded(done, {Sources}, SourcesOptions())
    ensures r == EmitAll(next, command, cfg, envs, base)
  {
    r := cmd;
    next := Guarded(done, {Sources}, SourcesOptions());
    if Contains({Sources}, command) {
      ghost var body := Start;
      r, body := AddOption(r, body, AllowInsecureConnections, command, cfg, envs, cmd);
      r, body := AddOption(r, body, Format, command, cfg, envs, cmd);
      r, body := AddOption(r, body, Name, command, cfg, envs, cmd);
      r, body := AddOption(r, body, ProtocolVersion, command, cfg, envs, cmd);
      r, body := AddOption(r, body, Username, command, cfg, envs, cmd);
      r, body := AddOption(r, body, Password, command, cfg, envs, cmd);
      r, body := AddOption(r, body, StorePasswordInClearText, command, cfg, envs, cmd);
      r, body := AddOption(r, body, ValidAuthenticationTypes, command, cfg, envs, cmd);
      assert body == SourcesOptions();
    }
  }

  /** NuGetTaskExecutor.java:501-527: the block of UpdateOptions. */
  method AddUpdateOptions(cmd: seq<Word>, ghost done: Trail, command: string,
                   cfg: TaskConfig, envs: Environments, ghost base: seq<Word>)
    returns (r: seq<Word>, ghost next: Trail)
    requires cmd == EmitAll(done, command, cfg, envs, base)
    ensures next == Guarded(done, {Update}, UpdateOptions())
    ensures r == EmitAll(next, command, cfg, envs, base)
  {
    r := cmd;
    next := Guarded(done, {Update}, UpdateOptions());
    if Contains({Update}, command) {
      ghost var body := Start;
      r, body := AddOption(r, body, Id, command, cfg, envs, cmd);
      r, body := AddOption(r, body, RepositoryPath, command, cfg, envs, cmd);
      r, body := AddOption(r, body, Safe, command, cfg, envs, cmd);
      r, body := AddOption(r, body, FileConflictAction, command, cfg, envs, cmd);
      r, body := AddOption(r, body, Self, command, cfg, envs, cmd);
      assert body == UpdateOptions();
    }
  }

  /** The option blocks (NuGetTaskExecutor.java:154-528), each considered in emission order. */
  method AddOptions(cmd: seq<Word>, command: string, cfg: TaskConfig, envs: Environments)
    returns (r: seq<Word>)
    ensures r == WithOptions(command, cfg, envs, cmd)
  {
    r := cmd;
    ghost var done := Start;
    r, done := AddOption(r, done, ConfigFile, command, cfg, envs, cmd);
    r, done := AddOption(r, done, ForceEnglishOutput, command, cfg, envs, cmd);
    r, done := AddOption(r, done, Verbosity, command, cfg, envs, cmd);
    r, done := AddInstallPackUpdateOptions(r, done, command, cfg, envs, cmd);
    r, done := AddSourceOptions(r, done, command, cfg, envs, cmd);
    r, done := AddInstallPackRestoreOptions(r, done, command, cfg, envs, cmd);
    r, done := AddInstallOptions(r, done, command, cfg, envs, cmd);
    r, done := AddPackOptions(r, done, command, cfg, envs, cmd);
    r, done := AddInstallRestoreOptions(r, done, command, cfg, envs, cmd);
    r, done := AddInstallUpdateOptions(r, done, command, cfg, envs, cmd);
    r, done := AddPackRestoreUpdateOptions(r, done, command, cfg, envs, cmd);
    r, done := AddPackRestoreOptions(r, done, command, cfg, envs, cmd);
    r, done := AddPushDeleteOptions(r, done, command, cfg, envs, cmd);
    r, done := AddPushOptions(r, done, command, cfg, envs, cmd);
    r, done := AddConfigOptions(r, done, command, cfg, envs, cmd);
    r, done := AddRestoreOptions(r, done, command, cfg, envs, cmd);
    r, done := AddAddInitOptions(r, done, command, cfg, envs, cmd);
    r, done := AddDeleteOptions(r, done, command, cfg, envs, cmd);
    r, done := AddSourcesOptions(r, done, command, cfg, envs, cmd);
    r, done := AddUpdateOptions(r, done, command, cfg, envs, cmd);
    assert done == EmissionOrder();
  }

  /** createNuGetProcessWithOptions: the argument list of the NuGet process. */
  method CreateNuGetProcessWithOptions(cfg: TaskConfig, envs: Environments)
    returns (r: Result<seq<Word>, JavaException>)
    ensures r == CommandLine(cfg, envs)
  {
    var cmd: seq<Word> := [Some("nuget")];
    var command := cfg.command;
    cmd := cmd + [command];
    if command.None? {
      return Failure(NullPointerException);
    }
    var withArguments := AddPositionalArguments(cmd, command.value, cfg, envs);
    if withArguments.Failure? {
      return Failure(withArguments.error);
    }
    ghost var args := ArgumentWords(ArgumentKeysOf(command.value), cfg, envs).value;
    assert withArguments.value == [Some("nuget"), Some(command.value)] + args;
    cmd := withArguments.value + [Some("-NonInteractive")];
    cmd := AddOptions(cmd, command.value, cfg, envs);
    return Success(cmd);
  }

  /** How the launched NuGet process ended, as the runtime reports it. */
  datatype RunOutcome =
    | Exited(code: int)                      // waitFor returned this exit code
    | StartFailed(message: Option<string>)   // an IOException, with its message or null
    | Interrupted(message: Option<string>)   // an InterruptedException, with its message or null

  /** The Result the plugin returns to GoCD: success and a message. */
  datatype TaskResult = TaskResult(success: bool, message: string)

  /** A message appended to a string: Java writes a null one as "null". */
  function MessageText(message: Option<string>): string
  {
    if message.None? then "null" else message.value
  }

  /**
   * The result of a run (NuGetTaskExecutor.java:74-87, 113-117): success
   * exactly on exit code 0, one fixed message for every other exit code,
   * and the exception's message after a fixed prefix otherwise.
   */
  function RunResult(outcome: RunOutcome): (r: TaskResult)
    ensures r.success <==> outcome == Exited(0)
    ensures r.success ==> r.message == "NuGet execution complete."
    ensures outcome.Exited? && outcome.code != 0 ==>
      r.message == "NuGet execution failed. Please check the output."
  {
    match outcome
    case Exited(code) =>
      if code != 0 then TaskResult(false, "NuGet execution failed. Please check the output.")
      else TaskResult(true, "NuGet execution complete.")
    case StartFailed(message) => TaskResult(false, "NuGet execution failed: " + MessageText(message))
    case Interrupted(message) => TaskResult(false, "NuGet execution was interrupted: " + MessageText(message))
  }

  /** A variable name the process environment refuses: one holding '=' or NUL. */
  predicate IllegalName(name: string)
  {
    '=' in name || '\0' in name
  }

  /** A variable value the process environment refuses: one holding NUL. */
  predicate IllegalValue(value: string)
  {
    '\0' in value
  }

  /**
   * What copying one context variable into the process environment throws
   * (the JDK's process environment on Unix): the name is checked first,
   * then the value, which may not be null.
   */
  function EntryError(entry: (string, Option<string>)): (r: Option<JavaException>)
    ensures r.None? <==> !IllegalName(entry.0) && entry.1.Some? && !IllegalValue(entry.1.value)
    ensures r == Some(NullPointerException) <==> !IllegalName(entry.0) && entry.1.None?
    ensures r.Some? ==> r == Some(NullPointerException) || r == Some(IllegalArgumentException)
  {
    if IllegalName(entry.0) then Some(IllegalArgumentException)
    else if entry.1.None? then Some(NullPointerException)
    else if IllegalValue(entry.1.value) then Some(IllegalArgumentException)
    else None
  }

  /**
   * What putAll (NuGetTaskExecutor.java:102) throws: the exception of the
   * first refused variable, in the context's order, or none when every
   * variable is accepted.
   */
  function ContextError(env: EnvExpansion.Environment): (r: Option<JavaException>)
    ensures r.None? <==> forall i :: 0 <= i < |env| ==> EntryError(env[i]).None?
    ensures r.Some? ==> r.value == NullPointerException || r.value == IllegalArgumentException
  {
    if |env| == 0 then None
    else if EntryError(env[0]).Some? then EntryError(env[0])
    else ContextError(env[1..])
  }

  /** The first refused variable decides what putAll throws. */
  lemma {:induction false} FirstRefused(env: EnvExpansion.Environment, i: int)
    requires 0 <= i < |env| && EntryError(env[i]).Some?
    requires forall k :: 0 <= k < i ==> EntryError(env[k]).None?
    ensures ContextError(env) == EntryError(env[i])
  {
    if i > 0 {
      assert EntryError(env[0]).None?;
      FirstRefused(env[1..], i - 1);
    }
  }

  /**
   * execute (NuGetTaskExecutor.java:74-87, 99-105): the argument list is
   * built first; the context's variables are then copied into the process
   * environment, which throws on the first refused one (line 102); starting
   * the process throws on a null element of the argument list (line 105).
   * Only IOException and InterruptedException are caught, so none of these
   * escapes into a Result. Only then does the process run and its outcome
   * decide the result.
   */
  function Execution(cfg: TaskConfig, envs: Environments, outcome: RunOutcome): (r: Result<TaskResult, JavaException>)
    ensures r.Failure? <==>
      CommandLine(cfg, envs).Failure? ||
      (exists i :: 0 <= i < |envs.context| && EntryError(envs.context[i]).Some?) ||
      None in CommandLine(cfg, envs).value
    ensures r.Failure? && CommandLine(cfg, envs).Success? ==>
      r.error == NullPointerException || r.error == IllegalArgumentException
    ensures r.Success? ==> (r.value.success <==> outcome == Exited(0))
  {
    var line := CommandLine(cfg, envs);
    if line.Failure? then Failure(line.error)
    else if ContextError(envs.context).Some? then Failure(ContextError(envs.context).value)
    else if None in line.value then Failure(NullPointerException)
    else Success(RunResult(outcome))
  }

  /**
   * Once the command line is built, the first refused context variable
   * decides the exception, before any null word of the list is looked at.
   */
  lemma FirstRefusedDecides(cfg: TaskConfig, envs: Environments, outcome: RunOutcome, i: int)
    requires CommandLine(cfg, envs).Success?
    requires 0 <= i < |envs.context| && EntryError(envs.context[i]).Some?
    requires forall k :: 0 <= k < i ==> EntryError(envs.context[k]).None?
    ensures Execution(cfg, envs, outcome) == Failure(EntryError(envs.context[i]).value)
  {
    FirstRefused(envs.context, i);
  }

  /**
   * A name holding '=' is refused before a later null value is reached:
   * the run throws IllegalArgumentException, not NullPointerException.
   */
  lemma IllegalNameBeforeNullValue(cfg: TaskConfig, envs: Environments, outcome: RunOutcome)
    requires CommandLine(cfg, envs).Success?
    requires envs.context == [("A=B", Some("x")), ("C", None)]
    ensures Execution(cfg, envs, outcome) == Failure(IllegalArgumentException)
  {
    assert IllegalName(envs.context[0].0) by {
      assert envs.context[0].0[1] == '=';
    }
    FirstRefusedDecides(cfg, envs, outcome, 0);
  }

  /** execute as the plugin runs it; the process itself is the outcome it reports. */
  method Execute(cfg: TaskConfig, envs: Environments, outcome: RunOutcome) returns (r: Result<TaskResult, JavaException>)
    ensures r == Execution(cfg, envs, outcome)
  {
    var line := CreateNuGetProcessWithOptions(cfg, envs);
    if line.Failure? {
      return Failure(line.error);
    }
    var i := 0;
    while i < |envs.context|
      invariant 0 <= i <= |envs.context|
      invariant forall k :: 0 <= k < i ==> EntryError(envs.context[k]).None?
    {
      var (name, value) := envs.context[i];
      var refused: Option<JavaException> := None;
      if '=' in name || '\0' in name {
        refused := Some(IllegalArgumentException);
      } else if value.None? {
        refused := Some(NullPointerException);
      } else if '\0' in value.value {
        refused := Some(IllegalArgumentException);
      }
      if refused.Some? {
        FirstRefused(envs.context, i);
        return Failure(refused.value);
      }
      i := i + 1;
    }
    if None in line.value {
      return Failure(NullPointerException);
    }
    r := Success(RunResult(outcome));
  }
}
