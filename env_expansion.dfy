/**
 * NuGetTaskExecutor.expandEnvVars: every ${NAME} reference in a value is
 * replaced by the variable's value, first from the task context's
 * environment and then from the agent process's own environment; when
 * nothing changes, the whole value is taken as a variable name instead.
 */
module EnvExpansion {
  import opened Wrappers

  /**
   * An environment map as the entries its iteration visits, in that
   * order. A value may be null. The names are those of a Java map, so no
   * name occurs twice.
   */
  type Environment = seq<(string, Option<string>)>

  /** Map.get: the value stored under the name, or null when there is none. */
  function Lookup(env: Environment, name: string): (r: Option<string>)
    ensures r.Some? ==> (name, r) in env
    ensures (forall i :: 0 <= i < |env| ==> env[i].0 != name) ==> r == None
  {
    if env == [] then None
    else if env[0].0 == name then env[0].1
    else Lookup(env[1..], name)
  }

  /** The reference to a variable that expandEnvVars looks for. */
  function Pattern(name: string): (p: string)
    ensures |p| == |name| + 3 && p[0] == '$'
  {
    "${" + name + "}"
  }

  /**
   * String.replaceAll on a pattern that matches one literal text: the
   * occurrences are found from left to right and do not overlap.
   */
  function ReplaceAll(s: string, pat: string, rep: string): string
    requires |pat| > 0
    decreases |s|
  {
    if |s| < |pat| then s
    else if s[..|pat|] == pat then rep + ReplaceAll(s[|pat|..], pat, rep)
    else [s[0]] + ReplaceAll(s[1..], pat, rep)
  }

  predicate NoDollar(s: string)
  {
    forall i :: 0 <= i < |s| ==> s[i] != '$'
  }

  /** A text without a '$' holds no reference, so replacing one leaves it as it is. */
  lemma {:induction false} ReplaceInTextWithoutReference(s: string, pat: string, rep: string)
    requires |pat| > 0 && pat[0] == '$' && NoDollar(s)
    ensures ReplaceAll(s, pat, rep) == s
    decreases |s|
  {
    if |s| >= |pat| {
      assert s[..|pat|][0] != pat[0];
      ReplaceInTextWithoutReference(s[1..], pat, rep);
      assert [s[0]] + s[1..] == s;
    }
  }

  /** The one reference in a text is replaced and everything around it is kept. */
  lemma {:induction false} ReplaceSingleReference(pre: string, pat: string, post: string, rep: string)
    requires |pat| > 0 && pat[0] == '$' && NoDollar(pre) && NoDollar(post)
    ensures ReplaceAll(pre + pat + post, pat, rep) == pre + rep + post
    decreases |pre|
  {
    var s := pre + pat + post;
    if pre == [] {
      assert s[..|pat|] == pat && s[|pat|..] == post;
      ReplaceInTextWithoutReference(post, pat, rep);
    } else {
      assert s[..|pat|][0] == pre[0] != pat[0];
      assert s[1..] == pre[1..] + pat + post;
      ReplaceSingleReference(pre[1..], pat, post, rep);
      assert [pre[0]] + (pre[1..] + rep + post) == pre + rep + post;
    }
  }

  /** One of the two loops: each entry whose value is not null replaces its references. */
  function SubstituteAll(text: string, env: Environment): string
    decreases |env|
  {
    if env == [] then text
    else
      var earlier := SubstituteAll(text, env[..|env| - 1]);
      var (name, value) := env[|env| - 1];
      if value.Some? then ReplaceAll(earlier, Pattern(name), value.value) else earlier
  }

  /** Substitution leaves a text without references as it is. */
  lemma {:induction false} SubstituteInTextWithoutReference(text: string, env: Environment)
    requires NoDollar(text)
    ensures SubstituteAll(text, env) == text
    decreases |env|
  {
    if env != [] {
      SubstituteInTextWithoutReference(text, env[..|env| - 1]);
      var (name, value) := env[|env| - 1];
      if value.Some? {
        ReplaceInTextWithoutReference(text, Pattern(name), value.value);
      }
    }
  }

  /**
   * What expandEnvVars returns for a value that is not null: the value
   * with both environments substituted, or, when that changes nothing,
   * the context variable named by the whole value if it is set and not
   * empty, and otherwise the process variable of that name (null when
   * there is none).
   */
  function Expand(text: string, context: Environment, process: Environment): Option<string>
  {
    var expanded := SubstituteAll(SubstituteAll(text, context), process);
    if text == expanded then
      var fromContext := Lookup(context, text);
      if fromContext.Some? && fromContext.value != "" then fromContext else Lookup(process, text)
    else
      Some(expanded)
  }

  /**
   * expandEnvVars: a null value fails with a NullPointerException; any
   * other value gives its expansion.
   */
  method ExpandEnvVars(context: Environment, process: Environment, text: Option<string>)
    returns (r: Result<Option<string>, JavaException>)
    ensures text.None? ==> r == Failure(NullPointerException)
    ensures text.Some? ==> r == Success(Expand(text.value, context, process))
  {
    if text.None? {
      return Failure(NullPointerException);
    }
    var original := text.value;
    var expanded := original;
    var i := 0;
    while i < |context|
      invariant 0 <= i <= |context|
      invariant expanded == SubstituteAll(original, context[..i])
    {
      var (name, value) := context[i];
      assert context[..i + 1][..i] == context[..i];
      if value.Some? {
        expanded := ReplaceAll(expanded, Pattern(name), value.value);
      }
      i := i + 1;
    }
    assert context[..i] == context;
    var j := 0;
    while j < |process|
      invariant 0 <= j <= |process|
      invariant expanded == SubstituteAll(SubstituteAll(original, context), process[..j])
    {
      var (name, value) := process[j];
      assert process[..j + 1][..j] == process[..j];
      if value.Some? {
        expanded := ReplaceAll(expanded, Pattern(name), value.value);
      }
      j := j + 1;
    }
    assert process[..j] == process;
    if original == expanded {
      var fromContext := Lookup(context, original);
      if fromContext.Some? && fromContext.value != "" {
        expanded := fromContext.value;
      } else {
        var fromProcess := Lookup(process, original);
        return Success(fromProcess);
      }
    }
    return Success(Some(expanded));
  }

  /**
   * A value with no reference in it is a variable name: the context's
   * variable wins when it is set and not empty, the process's otherwise.
   */
  lemma WholeValueIsVariableName(text: string, context: Environment, process: Environment)
    requires NoDollar(text)
    ensures Lookup(context, text).Some? && Lookup(context, text).value != "" ==>
      Expand(text, context, process) == Lookup(context, text)
    ensures !(Lookup(context, text).Some? && Lookup(context, text).value != "") ==>
      Expand(text, context, process) == Lookup(process, text)
  {
    SubstituteInTextWithoutReference(text, context);
    SubstituteInTextWithoutReference(text, process);
  }

  /**
   * A name as environment variables are named: it holds neither '$' nor
   * '}', so its reference cannot overlap the reference of another name.
   */
  predicate PlainName(name: string)
  {
    forall i :: 0 <= i < |name| ==> name[i] != '$' && name[i] != '}'
  }

  /** A Java map: no name is visited twice, and every name is plain. */
  predicate WellFormed(env: Environment)
  {
    (forall i, j :: 0 <= i < j < |env| ==> env[i].0 != env[j].0) &&
    (forall i :: 0 <= i < |env| ==> PlainName(env[i].0))
  }

  /** In a map, Map.get finds the value of every entry under its own name. */
  lemma {:induction false} LookupEntry(env: Environment, i: int)
    requires WellFormed(env) && 0 <= i < |env|
    ensures Lookup(env, env[i].0) == env[i].1
  {
    if i > 0 {
      assert env[0].0 != env[i].0;
      assert env[1..][i - 1] == env[i];
      LookupEntry(env[1..], i - 1);
    }
  }

  /** A map without its last-visited entry is still a map. */
  lemma FrontWellFormed(env: Environment)
    requires WellFormed(env) && env != []
    ensures WellFormed(env[..|env| - 1])
  {
    var front := env[..|env| - 1];
    assert forall i :: 0 <= i < |front| ==> front[i] == env[i];
  }

  /** Only the entries whose value is not null, in the order they are visited. */
  function WithValues(env: Environment): (r: Environment)
    ensures forall i :: 0 <= i < |r| ==> r[i].1.Some? && r[i] in env
    decreases |env|
  {
    if env == [] then []
    else
      var last := env[|env| - 1];
      WithValues(env[..|env| - 1]) + (if last.1.Some? then [last] else [])
  }

  /** Substitution skips the null entries: it is the same on the entries that have values. */
  lemma {:induction false} SubstitutionSkipsNullValues(text: string, env: Environment)
    ensures SubstituteAll(text, env) == SubstituteAll(text, WithValues(env))
    decreases |env|
  {
    if env != [] {
      var front := env[..|env| - 1];
      var last := env[|env| - 1];
      SubstitutionSkipsNullValues(text, front);
      if last.1.Some? {
        var w := WithValues(front) + [last];
        assert WithValues(env) == w && w[..|w| - 1] == WithValues(front) && w[|w| - 1] == last;
      } else {
        assert WithValues(env) == WithValues(front) + [] == WithValues(front);
      }
    }
  }

  /**
   * The reference to a plain name is left alone by the replacement of any
   * other plain name's references.
   */
  lemma {:induction false} ReplaceOtherName(pre: string, name: string, post: string, other: string, rep: string)
    requires NoDollar(pre) && NoDollar(post) && PlainName(name) && PlainName(other) && name != other
    ensures ReplaceAll(pre + Pattern(name) + post, Pattern(other), rep) == pre + Pattern(name) + post
    decreases |pre|
  {
    var s := pre + Pattern(name) + post;
    var pat := Pattern(other);
    if |s| >= |pat| {
      if pre == [] {
        if |other| < |name| {
          assert s[2 + |other|] == name[|other|] != pat[2 + |other|];
        } else if |other| > |name| {
          assert s[2 + |name|] != other[|name|] == pat[2 + |name|];
        } else {
          assert !(forall k :: 0 <= k < |name| ==> name[k] == other[k]);
          var k :| 0 <= k < |name| && name[k] != other[k];
          assert s[2 + k] == name[k] != other[k] == pat[2 + k];
        }
        assert s[..|pat|] != pat;
        assert s[1..] == "{" + name + "}" + post;
        assert NoDollar(s[1..]);
        ReplaceInTextWithoutReference(s[1..], pat, rep);
        assert [s[0]] + s[1..] == s;
      } else {
        assert s[..|pat|][0] == pre[0] != pat[0];
        assert s[1..] == pre[1..] + Pattern(name) + post;
        ReplaceOtherName(pre[1..], name, post, other, rep);
        assert [pre[0]] + (pre[1..] + Pattern(name) + post) == s;
      }
    }
  }

  /**
   * A map that holds no value under the name leaves its one reference in
   * the text.
   */
  lemma {:induction false} SubstituteUnsetName(pre: string, name: string, post: string, env: Environment)
    requires NoDollar(pre) && NoDollar(post) && PlainName(name) && WellFormed(env)
    requires Lookup(env, name) == None
    ensures SubstituteAll(pre + Pattern(name) + post, env) == pre + Pattern(name) + post
    decreases |env|
  {
    if env != [] {
      var front := env[..|env| - 1];
      var (other, value) := env[|env| - 1];
      LookupEntry(env, |env| - 1);
      FrontWellFormed(env);
      if Lookup(front, name).Some? {
        var k :| 0 <= k < |front| && front[k] == (name, Lookup(front, name));
        assert env[k] == front[k];
        LookupEntry(env, k);
      }
      SubstituteUnsetName(pre, name, post, front);
      if value.Some? {
        ReplaceOtherName(pre, name, post, other, value.value);
      }
    }
  }

  /**
   * A map that holds a value under the name replaces the name's one
   * reference by it, whatever else the map holds.
   */
  lemma {:induction false} SubstituteSetName(pre: string, name: string, post: string, value: string, env: Environment)
    requires NoDollar(pre) && NoDollar(post) && NoDollar(value) && PlainName(name) && WellFormed(env)
    requires Lookup(env, name) == Some(value)
    ensures SubstituteAll(pre + Pattern(name) + post, env) == pre + value + post
    decreases |env|
  {
    var front := env[..|env| - 1];
    LookupEntry(env, |env| - 1);
    FrontWellFormed(env);
    var k :| 0 <= k < |env| && env[k] == (name, Some(value));
    if k < |env| - 1 {
      assert front[k] == env[k];
      LookupEntry(front, k);
      SubstituteSetName(pre, name, post, value, front);
      assert NoDollar(pre + value + post);
      LaterEntriesKeep(pre + Pattern(name) + post, pre + value + post, env);
    } else {
      LastNameNotInFront(env);
      SubstituteUnsetName(pre, name, post, front);
      LastEntryReplaces(pre, name, post, value, env);
    }
  }

  /** The last entry replaces the one reference the earlier entries left in place. */
  lemma LastEntryReplaces(pre: string, name: string, post: string, value: string, env: Environment)
    requires NoDollar(pre) && NoDollar(post) && env != [] && env[|env| - 1] == (name, Some(value))
    requires SubstituteAll(pre + Pattern(name) + post, env[..|env| - 1]) == pre + Pattern(name) + post
    ensures SubstituteAll(pre + Pattern(name) + post, env) == pre + value + post
  {
    ReplaceSingleReference(pre, Pattern(name), post, value);
  }

  /** Once the earlier entries leave no reference, the last entry changes nothing. */
  lemma LaterEntriesKeep(text: string, result: string, env: Environment)
    requires env != [] && NoDollar(result) && SubstituteAll(text, env[..|env| - 1]) == result
    ensures SubstituteAll(text, env) == result
  {
    var (other, v) := env[|env| - 1];
    if v.Some? {
      ReplaceInTextWithoutReference(result, Pattern(other), v.value);
    }
  }

  /** In a map, the name of the last-visited entry is not among the earlier ones. */
  lemma LastNameNotInFront(env: Environment)
    requires WellFormed(env) && env != []
    ensures Lookup(env[..|env| - 1], env[|env| - 1].0) == None
  {
    var front := env[..|env| - 1];
    assert forall i :: 0 <= i < |front| ==> front[i].0 == env[i].0 != env[|env| - 1].0;
  }

  /**
   * A reference to a variable the context sets is replaced by the
   * context's value, whatever the rest of the context holds and whatever
   * the process environment holds under the same name.
   */
  lemma ReferenceFromContext(pre: string, name: string, post: string, value: string,
                             context: Environment, process: Environment)
    requires NoDollar(pre) && NoDollar(post) && NoDollar(value) && PlainName(name)
    requires WellFormed(context) && Lookup(context, name) == Some(value)
    ensures Expand(pre + Pattern(name) + post, context, process) == Some(pre + value + post)
  {
    var text := pre + Pattern(name) + post;
    SubstituteSetName(pre, name, post, value, context);
    assert NoDollar(pre + value + post);
    SubstituteInTextWithoutReference(pre + value + post, process);
    assert text[|pre|] == '$';
  }

  /**
   * A reference to a variable that the context lacks, or holds as null, is
   * replaced by the process environment's value.
   */
  lemma ReferenceFromProcess(pre: string, name: string, post: string, value: string,
                             context: Environment, process: Environment)
    requires NoDollar(pre) && NoDollar(post) && NoDollar(value) && PlainName(name)
    requires WellFormed(context) && WellFormed(process)
    requires Lookup(context, name) == None && Lookup(process, name) == Some(value)
    ensures Expand(pre + Pattern(name) + post, context, process) == Some(pre + value + post)
  {
    var text := pre + Pattern(name) + post;
    SubstituteUnsetName(pre, name, post, context);
    SubstituteSetName(pre, name, post, value, process);
    assert text[|pre|] == '$';
    assert NoDollar(pre + value + post);
  }

  /**
   * A reference to a variable that neither environment sets is left in the
   * text, so the whole text is looked up as a name instead, as for
   * "${UNSET}".
   */
  lemma UnsetReference(pre: string, name: string, post: string, context: Environment, process: Environment)
    requires NoDollar(pre) && NoDollar(post) && PlainName(name)
    requires WellFormed(context) && WellFormed(process)
    requires Lookup(context, name) == None && Lookup(process, name) == None
    ensures var text := pre + Pattern(name) + post;
      var fromContext := Lookup(context, text);
      Expand(text, context, process) ==
        if fromContext.Some? && fromContext.value != "" then fromContext else Lookup(process, text)
  {
    SubstituteUnsetName(pre, name, post, context);
    SubstituteUnsetName(pre, name, post, process);
  }

  /**
   * The pieces of the install example's output directory hold no reference.
   * Stated apart so that the literals are unfolded in this small proof only.
   */
  lemma InstallPathPieces()
    ensures NoDollar("./build/test-results/") && NoDollar("/Newtonsoft.Json") && NoDollar("13.0.3")
    ensures PlainName("PackageVersion")
  {
  }

  /**
   * The output directory of the install example, on the assumption that it
   * is written with one reference to PackageVersion: the version comes from
   * any context that sets it to 13.0.3.
   */
  lemma InstallOutputDirectoryExample(context: Environment, process: Environment)
    requires WellFormed(context) && Lookup(context, "PackageVersion") == Some("13.0.3")
    ensures Expand("./build/test-results/" + Pattern("PackageVersion") + "/Newtonsoft.Json", context, process)
         == Some("./build/test-results/" + "13.0.3" + "/Newtonsoft.Json")
  {
    InstallPathPieces();
    ReferenceFromContext("./build/test-results/", "PackageVersion", "/Newtonsoft.Json", "13.0.3", context, process);
  }
}
