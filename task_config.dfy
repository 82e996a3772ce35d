/**
 * The task configuration: the property map a request carries (each
 * property is a small map whose "value" entry holds a string, a boolean or
 * nothing) and the typed view of it that the executor reads.
 */
module TaskConfiguration {
  import opened Wrappers
  import opened JavaStrings
  import opened TaskPlugin

  /**
   * The "value" entry of one property. A property whose map has no
   * "value" entry reads exactly like one whose value is null, so both are
   * Null here.
   */
  datatype RawValue = Null | Text(text: string) | Flag(flag: bool)

  /** The configuration map of a request, keyed by property name. */
  type PropertyBag = map<string, RawValue>

  /**
   * The property can be read as a String: the cast in TaskConfig.getValue
   * and ValidateRequest.configVarIsNotDefined would fail on a boolean.
   */
  predicate HoldsText(bag: PropertyBag, key: string)
  {
    key in bag ==> !bag[key].Flag?
  }

  /** The properties the configuration reads as strings. */
  const TextKeys: set<string> := {CommandProperty} + ArgumentKeys + TextOptionKeys

  /** The properties the configuration reads as booleans. */
  const BooleanKeys: set<string> := SwitchOptionKeys + FromEnvKeys

  /** TaskConfig.getValue: null for a missing property or value, the string otherwise. */
  function GetValue(bag: PropertyBag, key: string): (r: Option<string>)
    requires HoldsText(bag, key)
    ensures r.None? <==> key !in bag || bag[key] == Null
    ensures r.Some? ==> bag[key] == Text(r.value)
  {
    if key !in bag then None
    else match bag[key]
      case Text(t) => Some(t)
      case _ => None
  }

  /**
   * TaskConfig.getBooleanValue: false for a missing property or value, a
   * boolean as it is, and a string read by Boolean.parseBoolean.
   */
  function GetBooleanValue(bag: PropertyBag, key: string): (b: bool)
    ensures b <==> (key in bag &&
                    (bag[key] == Flag(true) || (bag[key].Text? && LowerAsciiString(bag[key].text) == "true")))
  {
    if key !in bag then false
    else match bag[key]
      case Null => false
      case Text(t) => ParseBoolean(t)
      case Flag(f) => f
  }

  /**
   * The typed configuration: the command, the text of every argument and
   * text option, and the state of every switch and FromEnv flag.
   */
  datatype TaskConfig = TaskConfig(
    command: Option<string>,
    values: map<string, Option<string>>,
    switches: map<string, bool>)
  {
    /** The getter of an argument or text option; a property the configuration does not hold reads as null. */
    function Value(key: string): Option<string>
    {
      if key in values then values[key] else None
    }

    /** The getter of a switch or FromEnv flag; one the configuration does not hold reads as false. */
    predicate Switch(key: string)
    {
      key in switches && switches[key]
    }
  }

  /** Every text property can be read as a string. */
  predicate ReadableAsText(bag: PropertyBag)
  {
    forall k :: k in TextKeys ==> HoldsText(bag, k)
  }

  /**
   * The TaskConfig constructor: every field is read from the property of
   * its own name, the text ones with getValue and the flags with
   * getBooleanValue.
   */
  function FromProperties(bag: PropertyBag): (c: TaskConfig)
    requires ReadableAsText(bag)
    ensures c.command == (if CommandProperty in bag && bag[CommandProperty].Text?
                          then Some(bag[CommandProperty].text) else None)
    ensures forall k :: k in ArgumentKeys + TextOptionKeys ==>
      c.Value(k) == (if k in bag && bag[k].Text? then Some(bag[k].text) else None)
    ensures forall k :: k !in ArgumentKeys + TextOptionKeys ==> c.Value(k) == None
    ensures forall k :: c.Switch(k) <==> k in BooleanKeys && GetBooleanValue(bag, k)
  {
    TaskConfig(
      GetValue(bag, CommandProperty),
      map k | k in ArgumentKeys + TextOptionKeys :: GetValue(bag, k),
      map k | k in BooleanKeys :: GetBooleanValue(bag, k))
  }

  /**
   * Each field depends on its own property alone: two requests that agree
   * on a property give configurations that agree on the field read from it.
   */
  lemma FieldsAreLocal(bag1: PropertyBag, bag2: PropertyBag, key: string)
    requires ReadableAsText(bag1) && ReadableAsText(bag2)
    requires (key in bag1 <==> key in bag2) && (key in bag1 ==> bag1[key] == bag2[key])
    ensures FromProperties(bag1).Value(key) == FromProperties(bag2).Value(key)
    ensures FromProperties(bag1).Switch(key) == FromProperties(bag2).Switch(key)
    ensures key == CommandProperty ==> FromProperties(bag1).command == FromProperties(bag2).command
  {
  }

  /** An empty request gives no command, no values and no switch set. */
  lemma EmptyRequest(key: string)
    ensures FromProperties(map[]).command == None
    ensures FromProperties(map[]).Value(key) == None
    ensures !FromProperties(map[]).Switch(key)
  {
  }
}
