/**
 * ValidateRequest: the check of a task configuration before it is saved.
 * The request's property bag is mapped to a map from property name to
 * error message; the command must be set, and each command that takes
 * positional arguments must have them set.
 */
module ValidateRequest {
  import opened Wrappers
  import opened JavaStrings
  import opened TaskConfiguration
  import TaskPlugin

  /**
   * configVarIsNotDefined (ValidateRequest.java:37-39): a property is not
   * defined when it is missing, its value is null or its value trims to
   * empty; a value that is not a string fails the cast.
   */
  function ConfigVarIsNotDefined(bag: PropertyBag, property: string): (r: Result<bool, JavaException>)
    ensures r.Failure? <==> property in bag && bag[property].Flag?
    ensures r.Failure? ==> r.error == ClassCastException
    ensures r.Success? ==>
      (r.value <==> property !in bag || bag[property] == Null || AllTrimmable(bag[property].text))
  {
    if property !in bag then Success(true)
    else match bag[property]
      case Null => Success(true)
      case Flag(_) => Failure(ClassCastException)
      case Text(t) => BlankTrimsToEmpty(t); Success(Trim(t) == "")
  }

  /** getMissingArgumentErrorMsg (ValidateRequest.java:48-50). */
  function MissingArgumentMessage(command: string, property: string, placeholder: string): string
  {
    "Command " + command + " must have Argument " + property + " set to " + placeholder
  }

  /** The message recorded under "command" when no command is set (ValidateRequest.java:62). */
  const CommandMessage := "Command must be set to one of [install, pack, push, config, restore, add, delete, init, sources, update]"

  /** The placeholder naming the first argument of each of the seven commands that take one (ValidateRequest.java:68-75). */
  function FirstArgLookup(): map<string, string>
  {
    map[
      TaskPlugin.Token(TaskPlugin.Install) := "<packageID | configFilePath>",
      TaskPlugin.Token(TaskPlugin.Pack) := "<nuspecPath | projectPath>",
      TaskPlugin.Token(TaskPlugin.Push) := "<packagePath>",
      TaskPlugin.Token(TaskPlugin.Restore) := "<projectPath>",
      TaskPlugin.Token(TaskPlugin.Add) := "<packagePath>",
      TaskPlugin.Token(TaskPlugin.Delete) := "<packageID>",
      TaskPlugin.Token(TaskPlugin.Update) := "<packageID>"]
  }

  /** The placeholder of a command that takes a package argument, as the table gives it. */
  function Placeholder(c: TaskPlugin.Command): string
    requires c in TaskPlugin.InstallPackPushRestoreAddDeleteUpdate
  {
    FirstArgLookupCovers(c);
    FirstArgLookup()[TaskPlugin.Token(c)]
  }

  /** Every command with a package argument has a placeholder. */
  lemma FirstArgLookupCovers(c: TaskPlugin.Command)
    requires c in TaskPlugin.InstallPackPushRestoreAddDeleteUpdate
    ensures TaskPlugin.Token(c) in FirstArgLookup()
  {
  }

  /**
   * The properties the validator requires of a command, in the order it
   * checks them: the package argument for the seven commands that take
   * one (and the package version for delete), source and destination for
   * init, the operation for sources, and nothing for config, setapikey or
   * a token that is no command.
   */
  function RequiredArguments(command: Option<TaskPlugin.Command>): seq<string>
  {
    match command
    case Some(Delete) => [TaskPlugin.ArgPackageIdOrFilePath, TaskPlugin.ArgPackageVersion]
    case Some(Init) => [TaskPlugin.ArgSource, TaskPlugin.ArgDestination]
    case Some(Sources) => [TaskPlugin.ArgOperation]
    case Some(Config) => []
    case Some(SetApiKey) => []
    case Some(_) => [TaskPlugin.ArgPackageIdOrFilePath]
    case None => []
  }

  /**
   * The message recorded when a required property of command c is not
   * defined. The package version of delete is reported in the words of
   * the first argument: the message names argPackageIdOrFilePath
   * (ValidateRequest.java:83).
   */
  function ArgumentMessage(c: TaskPlugin.Command, property: string): string
    requires property in RequiredArguments(Some(c))
  {
    var command := TaskPlugin.Token(c);
    if property == TaskPlugin.ArgPackageIdOrFilePath then
      MissingArgumentMessage(command, TaskPlugin.ArgPackageIdOrFilePath, Placeholder(c))
    else if property == TaskPlugin.ArgPackageVersion then
      MissingArgumentMessage(command, TaskPlugin.ArgPackageIdOrFilePath, "<packageVersion>")
    else if property == TaskPlugin.ArgSource then MissingArgumentMessage(command, TaskPlugin.ArgSource, "<source>")
    else if property == TaskPlugin.ArgDestination then MissingArgumentMessage(command, TaskPlugin.ArgDestination, "<destination>")
    else MissingArgumentMessage(command, TaskPlugin.ArgOperation, "<operation>")
  }

  /** A property that is missing, null or blank; the caller has ruled out a boolean. */
  predicate Undefined(bag: PropertyBag, property: string)
  {
    property !in bag || bag[property] == Null || (bag[property].Text? && AllTrimmable(bag[property].text))
  }

  /** The errors recorded for the arguments a trimmed command requires. */
  function ArgumentErrors(bag: PropertyBag, command: Option<TaskPlugin.Command>): (errors: map<string, string>)
    ensures forall k :: k in errors <==> k in RequiredArguments(command) && Undefined(bag, k)
  {
    map k | k in RequiredArguments(command) && Undefined(bag, k) :: ArgumentMessage(command.value, k)
  }

  /** A command with one required argument records at most that argument's error. */
  lemma ArgumentErrorsOfOne(bag: PropertyBag, command: Option<TaskPlugin.Command>)
    requires |RequiredArguments(command)| == 1
    ensures var k := RequiredArguments(command)[0];
      ArgumentErrors(bag, command) == if Undefined(bag, k) then map[k := ArgumentMessage(command.value, k)] else map[]
  {
  }

  /** A command with two required arguments records the errors of each independently. */
  lemma ArgumentErrorsOfTwo(bag: PropertyBag, command: Option<TaskPlugin.Command>)
    requires |RequiredArguments(command)| == 2
    ensures var required := RequiredArguments(command);
      var first := if Undefined(bag, required[0]) then map[required[0] := ArgumentMessage(command.value, required[0])] else map[];
      ArgumentErrors(bag, command) ==
        if Undefined(bag, required[1]) then first[required[1] := ArgumentMessage(command.value, required[1])] else first
  {
  }

  /** Some argument the validator reads as a string holds a boolean. */
  predicate ReadsBoolean(bag: PropertyBag, properties: seq<string>)
  {
    exists i :: 0 <= i < |properties| && properties[i] in bag && bag[properties[i]].Flag?
  }

  /**
   * ValidateRequest.execute (ValidateRequest.java:57-103) as a value. A
   * missing or null command fails with a NullPointerException when it is
   * trimmed, and a boolean where a string is read fails the cast.
   * Otherwise the errors are one under "command" exactly when the command
   * is blank, with the fixed message, and one under each argument the
   * trimmed command requires that is not defined.
   */
  function Validation(bag: PropertyBag): (r: Result<map<string, string>, JavaException>)
    ensures r == Failure(NullPointerException) <==>
      TaskPlugin.CommandProperty !in bag || bag[TaskPlugin.CommandProperty] == Null
    ensures r.Success? ==> bag[TaskPlugin.CommandProperty].Text?
  {
    if TaskPlugin.CommandProperty in bag && bag[TaskPlugin.CommandProperty].Flag? then Failure(ClassCastException)
    else if TaskPlugin.CommandProperty !in bag || bag[TaskPlugin.CommandProperty] == Null then Failure(NullPointerException)
    else
      var text := bag[TaskPlugin.CommandProperty].text;
      Checked(bag, AllTrimmable(text), TaskPlugin.Parse(Trim(text)))
  }

  /**
   * What execute finds once the command is known to be a string: whether
   * it is blank, and the command its trimmed text names, if any.
   */
  function Checked(bag: PropertyBag, blank: bool, command: Option<TaskPlugin.Command>): (r: Result<map<string, string>, JavaException>)
    ensures r.Failure? <==> ReadsBoolean(bag, RequiredArguments(command))
    ensures r.Failure? ==> r.error == ClassCastException
    ensures r.Success? ==> (TaskPlugin.CommandProperty in r.value <==> blank)
    ensures r.Success? && blank ==> r.value[TaskPlugin.CommandProperty] == CommandMessage
    ensures r.Success? ==> forall k :: k in r.value && k != TaskPlugin.CommandProperty ==>
      k in RequiredArguments(command) && Undefined(bag, k) && r.value[k] == ArgumentMessage(command.value, k)
    ensures r.Success? ==> forall k :: k in RequiredArguments(command) && Undefined(bag, k) ==> k in r.value
  {
    CommandNotRequired(command);
    if ReadsBoolean(bag, RequiredArguments(command)) then Failure(ClassCastException)
    else
      var commandErrors := if blank then map[TaskPlugin.CommandProperty := CommandMessage] else map[];
      Success(commandErrors + ArgumentErrors(bag, command))
  }

  /** One check of execute: a boolean fails the cast, an undefined property records its message. */
  method CheckArgument(errorMap: map<string, string>, bag: PropertyBag, property: string, message: string)
    returns (r: Result<map<string, string>, JavaException>)
    ensures r.Failure? <==> property in bag && bag[property].Flag?
    ensures r.Failure? ==> r.error == ClassCastException
    ensures r.Success? ==> r.value == if Undefined(bag, property) then errorMap[property := message] else errorMap
  {
    var undefined := ConfigVarIsNotDefined(bag, property);
    if undefined.Failure? {
      return Failure(undefined.error);
    }
    if undefined.value {
      return Success(errorMap[property := message]);
    }
    return Success(errorMap);
  }

  /** The placeholder table execute fills in place (ValidateRequest.java:68-75). */
  method NewFirstArgLookup() returns (firstArgLookup: map<string, string>)
    ensures firstArgLookup == FirstArgLookup()
  {
    firstArgLookup := map[];
    firstArgLookup := firstArgLookup[TaskPlugin.Token(TaskPlugin.Install) := "<packageID | configFilePath>"];
    firstArgLookup := firstArgLookup[TaskPlugin.Token(TaskPlugin.Pack) := "<nuspecPath | projectPath>"];
    firstArgLookup := firstArgLookup[TaskPlugin.Token(TaskPlugin.Push) := "<packagePath>"];
    firstArgLookup := firstArgLookup[TaskPlugin.Token(TaskPlugin.Restore) := "<projectPath>"];
    firstArgLookup := firstArgLookup[TaskPlugin.Token(TaskPlugin.Add) := "<packagePath>"];
    firstArgLookup := firstArgLookup[TaskPlugin.Token(TaskPlugin.Delete) := "<packageID>"];
    firstArgLookup := firstArgLookup[TaskPlugin.Token(TaskPlugin.Update) := "<packageID>"];
  }

  /** The checks of the seven commands with a package argument (ValidateRequest.java:67-85). */
  method CheckPackageArguments(errorMap: map<string, string>, bag: PropertyBag, command: string, ghost c: TaskPlugin.Command)
    returns (r: Result<map<string, string>, JavaException>)
    requires c in TaskPlugin.InstallPackPushRestoreAddDeleteUpdate && command == TaskPlugin.Token(c)
    ensures r == if ReadsBoolean(bag, RequiredArguments(Some(c))) then Failure(ClassCastException)
                 else Success(errorMap + ArgumentErrors(bag, Some(c)))
  {
    ghost var required := RequiredArguments(Some(c));
    var firstArgLookup := NewFirstArgLookup();
    FirstArgLookupCovers(c);
    r := CheckArgument(errorMap, bag, TaskPlugin.ArgPackageIdOrFilePath,
      MissingArgumentMessage(command, TaskPlugin.ArgPackageIdOrFilePath, firstArgLookup[command]));
    if r.Failure? {
      assert required[0] == TaskPlugin.ArgPackageIdOrFilePath;
      return;
    }
    if command == TaskPlugin.Token(TaskPlugin.Delete) {
      TaskPlugin.TokensDistinct(c, TaskPlugin.Delete);
      r := CheckArgument(r.value, bag, TaskPlugin.ArgPackageVersion,
        MissingArgumentMessage(command, TaskPlugin.ArgPackageIdOrFilePath, "<packageVersion>"));
      if r.Failure? {
        assert required[1] == TaskPlugin.ArgPackageVersion;
        return;
      }
      ArgumentErrorsOfTwo(bag, Some(c));
      AddTwo(errorMap, bag, TaskPlugin.ArgPackageIdOrFilePath, ArgumentMessage(c, TaskPlugin.ArgPackageIdOrFilePath),
        TaskPlugin.ArgPackageVersion, ArgumentMessage(c, TaskPlugin.ArgPackageVersion));
    } else {
      assert c != TaskPlugin.Delete;
      assert required == [TaskPlugin.ArgPackageIdOrFilePath];
      ArgumentErrorsOfOne(bag, Some(c));
      AddOne(errorMap, TaskPlugin.ArgPackageIdOrFilePath, ArgumentMessage(c, TaskPlugin.ArgPackageIdOrFilePath));
    }
  }

  /** The checks of init (ValidateRequest.java:86-93): source and destination independently. */
  method CheckInitArguments(errorMap: map<string, string>, bag: PropertyBag, command: string)
    returns (r: Result<map<string, string>, JavaException>)
    requires command == TaskPlugin.Token(TaskPlugin.Init)
    ensures r == if ReadsBoolean(bag, RequiredArguments(Some(TaskPlugin.Init))) then Failure(ClassCastException)
                 else Success(errorMap + ArgumentErrors(bag, Some(TaskPlugin.Init)))
  {
    ghost var required := RequiredArguments(Some(TaskPlugin.Init));
    r := CheckArgument(errorMap, bag, TaskPlugin.ArgSource, MissingArgumentMessage(command, TaskPlugin.ArgSource, "<source>"));
    if r.Failure? {
      assert required[0] == TaskPlugin.ArgSource;
      return;
    }
    r := CheckArgument(r.value, bag, TaskPlugin.ArgDestination,
      MissingArgumentMessage(command, TaskPlugin.ArgDestination, "<destination>"));
    if r.Failure? {
      assert required[1] == TaskPlugin.ArgDestination;
      return;
    }
    ArgumentErrorsOfTwo(bag, Some(TaskPlugin.Init));
    AddTwo(errorMap, bag, TaskPlugin.ArgSource, ArgumentMessage(TaskPlugin.Init, TaskPlugin.ArgSource),
      TaskPlugin.ArgDestination, ArgumentMessage(TaskPlugin.Init, TaskPlugin.ArgDestination));
  }

  /** Two checks in a row add what each finds. */
  lemma AddTwo(m: map<string, string>, bag: PropertyBag, k1: string, v1: string, k2: string, v2: string)
    ensures var first := if Undefined(bag, k1) then map[k1 := v1] else map[];
      var both := if Undefined(bag, k2) then first[k2 := v2] else first;
      var m1 := if Undefined(bag, k1) then m[k1 := v1] else m;
      m + both == if Undefined(bag, k2) then m1[k2 := v2] else m1
  {
  }

  /** The check of sources (ValidateRequest.java:94-97): the operation. */
  method CheckSourcesArguments(errorMap: map<string, string>, bag: PropertyBag, command: string)
    returns (r: Result<map<string, string>, JavaException>)
    requires command == TaskPlugin.Token(TaskPlugin.Sources)
    ensures r == if ReadsBoolean(bag, RequiredArguments(Some(TaskPlugin.Sources))) then Failure(ClassCastException)
                 else Success(errorMap + ArgumentErrors(bag, Some(TaskPlugin.Sources)))
  {
    ghost var required := RequiredArguments(Some(TaskPlugin.Sources));
    r := CheckArgument(errorMap, bag, TaskPlugin.ArgOperation,
      MissingArgumentMessage(command, TaskPlugin.ArgOperation, "<operation>"));
    if r.Failure? {
      assert required[0] == TaskPlugin.ArgOperation;
      return;
    }
    assert required == [TaskPlugin.ArgOperation];
    ArgumentErrorsOfOne(bag, Some(TaskPlugin.Sources));
    AddOne(errorMap, TaskPlugin.ArgOperation, ArgumentMessage(TaskPlugin.Sources, TaskPlugin.ArgOperation));
  }

  /** Adding a one-entry map is an update. */
  lemma AddOne(m: map<string, string>, k: string, v: string)
    ensures m + map[k := v] == m[k := v]
    ensures m + map[] == m
  {
  }

  /**
   * The argument checks of execute (ValidateRequest.java:67-98) for the
   * trimmed command, adding to the errors found so far; config, setapikey
   * and any other token are not checked.
   */
  method CheckArguments(errorMap: map<string, string>, bag: PropertyBag, command: string)
    returns (r: Result<map<string, string>, JavaException>)
    ensures r == if ReadsBoolean(bag, RequiredArguments(TaskPlugin.Parse(command))) then Failure(ClassCastException)
                 else Success(errorMap + ArgumentErrors(bag, TaskPlugin.Parse(command)))
  {
    if TaskPlugin.Contains(TaskPlugin.InstallPackPushRestoreAddDeleteUpdate, command) {
      r := CheckPackageArguments(errorMap, bag, command, TaskPlugin.Parse(command).value);
    } else if command == TaskPlugin.Token(TaskPlugin.Init) {
      TaskPlugin.ParseToken(TaskPlugin.Init);
      r := CheckInitArguments(errorMap, bag, command);
    } else if command == TaskPlugin.Token(TaskPlugin.Sources) {
      TaskPlugin.ParseToken(TaskPlugin.Sources);
      r := CheckSourcesArguments(errorMap, bag, command);
    } else {
      NothingRequired(command);
      assert errorMap + ArgumentErrors(bag, TaskPlugin.Parse(command)) == errorMap;
      r := Success(errorMap);
    }
  }

  /** A command outside the seven-command set other than init and sources requires no argument. */
  lemma NothingRequired(command: string)
    requires !TaskPlugin.Contains(TaskPlugin.InstallPackPushRestoreAddDeleteUpdate, command)
    requires command != TaskPlugin.Token(TaskPlugin.Init) && command != TaskPlugin.Token(TaskPlugin.Sources)
    ensures RequiredArguments(TaskPlugin.Parse(command)) == []
  {
    TaskPlugin.CommandSetFacts();
  }

  /**
   * ValidateRequest.execute (ValidateRequest.java:57-103): checks the
   * command, trims it and then checks the arguments it requires, filling
   * the error map as it goes.
   */
  method Execute(bag: PropertyBag) returns (r: Result<map<string, string>, JavaException>)
    ensures r == Validation(bag)
  {
    var errorMap: map<string, string> := map[];
    var commandUndefined := ConfigVarIsNotDefined(bag, TaskPlugin.CommandProperty);
    if commandUndefined.Failure? {
      return Failure(commandUndefined.error);
    }
    if commandUndefined.value {
      errorMap := errorMap[TaskPlugin.CommandProperty := CommandMessage];
    }
    if TaskPlugin.CommandProperty !in bag || bag[TaskPlugin.CommandProperty] == Null {
      return Failure(NullPointerException);
    }
    var command := Trim(bag[TaskPlugin.CommandProperty].text);
    r := CheckArguments(errorMap, bag, command);
  }

  /** The command property is never one of the required arguments. */
  lemma CommandNotRequired(command: Option<TaskPlugin.Command>)
    ensures TaskPlugin.CommandProperty !in RequiredArguments(command)
  {
  }

  /** The text of the command property of a request that has one. */
  function CommandText(bag: PropertyBag): string
    requires TaskPlugin.CommandProperty in bag && bag[TaskPlugin.CommandProperty].Text?
  {
    bag[TaskPlugin.CommandProperty].text
  }

  /**
   * Once the command is a string, validation is the check of its trimmed
   * text; stated once here so that the facts below need not unfold the
   * lookup of the command.
   */
  lemma ValidationChecks(bag: PropertyBag)
    requires TaskPlugin.CommandProperty in bag && bag[TaskPlugin.CommandProperty].Text?
    ensures Validation(bag) ==
      Checked(bag, AllTrimmable(CommandText(bag)), TaskPlugin.Parse(Trim(CommandText(bag))))
  {
  }

  /**
   * Validation fails exactly when the command is missing or null (a
   * NullPointerException) or when the command or an argument the trimmed
   * command requires holds a boolean (a ClassCastException).
   */
  lemma ValidationFailure(bag: PropertyBag)
    ensures Validation(bag).Failure? <==>
      TaskPlugin.CommandProperty !in bag || !bag[TaskPlugin.CommandProperty].Text? ||
      ReadsBoolean(bag, RequiredArguments(TaskPlugin.Parse(Trim(CommandText(bag)))))
    ensures Validation(bag).Failure? ==>
      Validation(bag).error == if TaskPlugin.CommandProperty !in bag || bag[TaskPlugin.CommandProperty] == Null
                               then NullPointerException else ClassCastException
  {
  }

  /**
   * The error keys lie among "command" and the five checked arguments;
   * every argument error is one the trimmed command requires and whose
   * property is not defined.
   */
  lemma ErrorKeys(bag: PropertyBag)
    requires Validation(bag).Success?
    ensures forall k :: k in Validation(bag).value ==>
      k == TaskPlugin.CommandProperty || k == TaskPlugin.ArgPackageIdOrFilePath || k == TaskPlugin.ArgPackageVersion ||
      k == TaskPlugin.ArgSource || k == TaskPlugin.ArgDestination || k == TaskPlugin.ArgOperation
    ensures forall k :: k in Validation(bag).value && k != TaskPlugin.CommandProperty ==>
      k in RequiredArguments(TaskPlugin.Parse(Trim(CommandText(bag)))) && Undefined(bag, k)
  {
    ValidationChecks(bag);
    RequiredArgumentsKnown(TaskPlugin.Parse(Trim(CommandText(bag))));
  }

  /** The validator checks no property but the five positional arguments. */
  lemma RequiredArgumentsKnown(command: Option<TaskPlugin.Command>)
    ensures forall k :: k in RequiredArguments(command) ==>
      k == TaskPlugin.ArgPackageIdOrFilePath || k == TaskPlugin.ArgPackageVersion ||
      k == TaskPlugin.ArgSource || k == TaskPlugin.ArgDestination || k == TaskPlugin.ArgOperation
  {
  }

  /** An error is recorded under "command", with the fixed message, exactly when the command is blank. */
  lemma CommandError(bag: PropertyBag)
    requires Validation(bag).Success?
    ensures TaskPlugin.CommandProperty in Validation(bag).value <==> AllTrimmable(CommandText(bag))
    ensures TaskPlugin.CommandProperty in Validation(bag).value ==>
      Validation(bag).value[TaskPlugin.CommandProperty] == CommandMessage
  {
    ValidationChecks(bag);
  }

  /** A blank command is the only error of its request: a blank command requires no arguments. */
  lemma BlankCommand(bag: PropertyBag)
    requires TaskPlugin.CommandProperty in bag && bag[TaskPlugin.CommandProperty].Text?
    requires AllTrimmable(CommandText(bag))
    ensures Validation(bag) == Success(map[TaskPlugin.CommandProperty := CommandMessage])
  {
    ValidationChecks(bag);
    BlankTrimsToEmpty(CommandText(bag));
    EmptyIsNoCommand();
    UncheckedCommands(bag, true, None);
  }

  /** The empty text names no command. */
  lemma EmptyIsNoCommand()
    ensures TaskPlugin.Parse("") == None
  {
  }

  /**
   * Only the trimmed command matters: two commands that trim alike are
   * validated alike.
   */
  lemma TrimmedCommand(bag: PropertyBag, t1: string, t2: string)
    requires Trim(t1) == Trim(t2)
    ensures Validation(bag[TaskPlugin.CommandProperty := Text(t1)]) ==
            Validation(bag[TaskPlugin.CommandProperty := Text(t2)])
  {
    var b1 := bag[TaskPlugin.CommandProperty := Text(t1)];
    var b2 := bag[TaskPlugin.CommandProperty := Text(t2)];
    ValidationChecks(b1);
    ValidationChecks(b2);
    BlankTrimsToEmpty(t1);
    BlankTrimsToEmpty(t2);
    var command := TaskPlugin.Parse(Trim(t1));
    CheckedIgnoresCommand(bag, t1, t2, AllTrimmable(t1), command);
  }

  /** The checks of the arguments do not read the command property. */
  lemma CheckedIgnoresCommand(bag: PropertyBag, t1: string, t2: string, blank: bool, command: Option<TaskPlugin.Command>)
    ensures Checked(bag[TaskPlugin.CommandProperty := Text(t1)], blank, command) ==
            Checked(bag[TaskPlugin.CommandProperty := Text(t2)], blank, command)
  {
    var b1 := bag[TaskPlugin.CommandProperty := Text(t1)];
    var b2 := bag[TaskPlugin.CommandProperty := Text(t2)];
    var required := RequiredArguments(command);
    CommandNotRequired(command);
    assert forall k :: k in required ==> (k in b1 <==> k in b2) && (k in b1 ==> b1[k] == b2[k]);
    assert ReadsBoolean(b1, required) == ReadsBoolean(b2, required);
    assert ArgumentErrors(b1, command) == ArgumentErrors(b2, command);
  }

  /**
   * A command padded with trimmable characters is validated as the command
   * itself.
   */
  lemma PaddedCommand(bag: PropertyBag, pre: string, w: string, post: string)
    requires AllTrimmable(pre) && AllTrimmable(post)
    requires |w| > 0 && !IsTrimmable(w[0]) && !IsTrimmable(w[|w| - 1])
    ensures Validation(bag[TaskPlugin.CommandProperty := Text(pre + w + post)]) ==
            Validation(bag[TaskPlugin.CommandProperty := Text(w)])
  {
    TrimOfPadded(pre, w, post);
    TrimOfPadded([], w, []);
    assert [] + w + [] == w;
    TrimmedCommand(bag, pre + w + post, w);
  }

  /** " install " is "install" between two blanks that trim drops. */
  lemma InstallPadding()
    ensures AllTrimmable(" ") && !IsTrimmable("install"[0]) && !IsTrimmable("install"[6])
    ensures " " + "install" + " " == " install "
  {
  }

  /** " install " is validated as install. */
  lemma PaddedInstall(bag: PropertyBag)
    ensures Validation(bag[TaskPlugin.CommandProperty := Text(" install ")]) ==
            Validation(bag[TaskPlugin.CommandProperty := Text("install")])
  {
    InstallPadding();
    PaddedCommand(bag, " ", "install", " ");
  }

  /*
   * The facts below are stated about the checks that follow the lookup of
   * the trimmed command; ValidationChecks carries them over to Validation.
   */

  /** config, setapikey and a token that is no command are checked for nothing but a blank command. */
  lemma UncheckedCommands(bag: PropertyBag, blank: bool, command: Option<TaskPlugin.Command>)
    requires command in {None, Some(TaskPlugin.Config), Some(TaskPlugin.SetApiKey)}
    ensures Checked(bag, blank, command) ==
      Success(if blank then map[TaskPlugin.CommandProperty := CommandMessage] else map[])
  {
    assert RequiredArguments(command) == [];
    assert ArgumentErrors(bag, command) == map[];
    AddOne(if blank then map[TaskPlugin.CommandProperty := CommandMessage] else map[], "", "");
  }

  /**
   * Each of the seven commands with a package argument records an error
   * under argPackageIdOrFilePath exactly when it is not defined, naming
   * the command and its placeholder.
   */
  lemma PackageArgumentError(bag: PropertyBag, blank: bool, c: TaskPlugin.Command)
    requires c in TaskPlugin.InstallPackPushRestoreAddDeleteUpdate
    requires Checked(bag, blank, Some(c)).Success?
    ensures var errors := Checked(bag, blank, Some(c)).value;
      (TaskPlugin.ArgPackageIdOrFilePath in errors <==> Undefined(bag, TaskPlugin.ArgPackageIdOrFilePath)) &&
      (TaskPlugin.ArgPackageIdOrFilePath in errors ==>
         errors[TaskPlugin.ArgPackageIdOrFilePath] ==
           MissingArgumentMessage(TaskPlugin.Token(c), TaskPlugin.ArgPackageIdOrFilePath, Placeholder(c)))
  {
    assert TaskPlugin.ArgPackageIdOrFilePath in RequiredArguments(Some(c));
  }

  /**
   * delete also requires argPackageVersion, but its message names
   * argPackageIdOrFilePath with the placeholder <packageVersion>.
   */
  lemma DeleteVersionError(bag: PropertyBag, blank: bool)
    requires Checked(bag, blank, Some(TaskPlugin.Delete)).Success?
    ensures var errors := Checked(bag, blank, Some(TaskPlugin.Delete)).value;
      (TaskPlugin.ArgPackageVersion in errors <==> Undefined(bag, TaskPlugin.ArgPackageVersion)) &&
      (TaskPlugin.ArgPackageVersion in errors ==>
         errors[TaskPlugin.ArgPackageVersion] == MissingArgumentMessage("delete", TaskPlugin.ArgPackageIdOrFilePath, "<packageVersion>"))
  {
    assert TaskPlugin.ArgPackageVersion in RequiredArguments(Some(TaskPlugin.Delete));
  }

  /** init checks its source and its destination each on its own. */
  lemma InitArgumentErrors(bag: PropertyBag, blank: bool)
    requires Checked(bag, blank, Some(TaskPlugin.Init)).Success?
    ensures var errors := Checked(bag, blank, Some(TaskPlugin.Init)).value;
      (TaskPlugin.ArgSource in errors <==> Undefined(bag, TaskPlugin.ArgSource)) &&
      (TaskPlugin.ArgDestination in errors <==> Undefined(bag, TaskPlugin.ArgDestination)) &&
      (TaskPlugin.ArgSource in errors ==>
         errors[TaskPlugin.ArgSource] == MissingArgumentMessage("init", TaskPlugin.ArgSource, "<source>")) &&
      (TaskPlugin.ArgDestination in errors ==>
         errors[TaskPlugin.ArgDestination] == MissingArgumentMessage("init", TaskPlugin.ArgDestination, "<destination>"))
  {
    assert TaskPlugin.ArgSource in RequiredArguments(Some(TaskPlugin.Init));
    assert TaskPlugin.ArgDestination in RequiredArguments(Some(TaskPlugin.Init));
  }

  /** sources checks its operation. */
  lemma SourcesArgumentError(bag: PropertyBag, blank: bool)
    requires Checked(bag, blank, Some(TaskPlugin.Sources)).Success?
    ensures var errors := Checked(bag, blank, Some(TaskPlugin.Sources)).value;
      (TaskPlugin.ArgOperation in errors <==> Undefined(bag, TaskPlugin.ArgOperation)) &&
      (TaskPlugin.ArgOperation in errors ==>
         errors[TaskPlugin.ArgOperation] == MissingArgumentMessage("sources", TaskPlugin.ArgOperation, "<operation>"))
  {
    assert TaskPlugin.ArgOperation in RequiredArguments(Some(TaskPlugin.Sources));
  }
}
