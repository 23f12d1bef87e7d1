/** Environment-variable substitution in configuration text (config_utils.py).

    `substitute_env_vars` is one `re.sub` with the pattern `\$\{([^}]+)\}`:
    scanning left to right, each `${NAME}` (NAME: one or more characters other
    than '}') is replaced by the variable's value, in a single pass. The model
    splits this into the scan (`Scan`, which the regular expression performs)
    and the replacement (`Expand`, which the callback performs). The process
    environment is a map parameter. */
module ConfigUtils {
  import opened Wrappers

  type Env = map<string, string>

  /** A piece of the scanned text: a character kept as it is, or a reference `${name}`. */
  datatype Segment = Literal(c: char) | Reference(name: string)

  /** What `[^}]+` accepts. */
  predicate ValidName(name: string) {
    |name| >= 1 && '}' !in name
  }

  function Unscan(segments: seq<Segment>): string
  {
    if segments == [] then ""
    else
      (match segments[0]
       case Literal(c) => [c]
       case Reference(name) => "${" + name + "}") + Unscan(segments[1..])
  }

  /** Names referenced by the segments, left to right. */
  function Names(segments: seq<Segment>): seq<string>
  {
    if segments == [] then []
    else if segments[0].Reference? then [segments[0].name] + Names(segments[1..])
    else Names(segments[1..])
  }

  /** The first '}' at or after `from`, if any. */
  function FindClose(s: string, from: nat): (r: Option<nat>)
    requires from <= |s|
    ensures r.Some? ==> from <= r.value < |s| && s[r.value] == '}'
    ensures r.Some? ==> forall k :: from <= k < r.value ==> s[k] != '}'
    ensures r.None? ==> forall k :: from <= k < |s| ==> s[k] != '}'
    decreases |s| - from
  {
    if from == |s| then None
    else if s[from] == '}' then Some(from)
    else FindClose(s, from + 1)
  }

  /** Where the regular expression matches at the start of `s`: the length of the match. */
  function MatchAt(s: string): (r: Option<nat>)
    ensures r.Some? ==> 4 <= r.value <= |s| && s[..r.value] == "${" + s[2..r.value - 1] + "}"
    ensures r.Some? ==> ValidName(s[2..r.value - 1])
  {
    if |s| >= 2 && s[0] == '$' && s[1] == '{' then
      match FindClose(s, 2)
      case Some(q) =>
        if q > 2 then
          assert s[..q + 1] == "${" + s[2..q] + "}";
          Some(q + 1)
        else None
      case None => None
    else None
  }

  /** The regular expression's left-to-right scan: every non-overlapping match,
      with the text between matches kept character by character. */
  function Scan(s: string): (segments: seq<Segment>)
    ensures Unscan(segments) == s
    ensures forall i :: 0 <= i < |segments| && segments[i].Reference? ==> ValidName(segments[i].name)
    decreases |s|
  {
    if s == [] then []
    else
      match MatchAt(s)
      case Some(end) =>
        var rest := Scan(s[end..]);
        assert s == s[..end] + s[end..];
        [Reference(s[2..end - 1])] + rest
      case None =>
        var rest := Scan(s[1..]);
        assert s == [s[0]] + s[1..];
        [Literal(s[0])] + rest
  }

  function MissingVariableMessage(name: string): string {
    "Environment variable '" + name + "' not found. Please set it before running the application."
  }

  predicate AllDefined(names: seq<string>, env: Env) {
    forall k :: 0 <= k < |names| ==> names[k] in env
  }

  /** The outcome of a substitution with `text` put in front of its output. */
  function Prepend(text: string, r: Result<string, string>): Result<string, string> {
    match r
    case Ok(t) => Ok(text + t)
    case Err(e) => Err(e)
  }

  /** The first name in `names` that `env` does not define, if any. */
  function FirstMissing(names: seq<string>, env: Env): (r: Option<string>)
    ensures r.None? <==> AllDefined(names, env)
    ensures r.Some? ==> r.value in names && r.value !in env
  {
    if names == [] then None
    else if names[0] !in env then Some(names[0])
    else FirstMissing(names[1..], env)
  }

  /** The callback applied to each segment: a reference becomes the variable's value,
      and the first reference to an unset variable aborts the whole substitution. */
  function Expand(segments: seq<Segment>, env: Env): (r: Result<string, string>)
    ensures r.Ok? <==> FirstMissing(Names(segments), env).None?
    ensures r.Err? ==> r.error == MissingVariableMessage(FirstMissing(Names(segments), env).value)
  {
    if segments == [] then Ok("")
    else
      match segments[0]
      case Literal(c) =>
        assert Names(segments) == Names(segments[1..]);
        (match Expand(segments[1..], env)
         case Ok(text) => Ok([c] + text)
         case Err(e) => Err(e))
      case Reference(name) =>
        assert Names(segments) == [name] + Names(segments[1..]);
        assert Names(segments)[1..] == Names(segments[1..]);
        if name !in env then
          Err(MissingVariableMessage(name))
        else
          match Expand(segments[1..], env)
          case Ok(text) => Ok(env[name] + text)
          case Err(e) => Err(e)
  }

  /** `substitute_env_vars(content)` with the environment `env`: it fails exactly when a
      referenced variable is unset, and then names the first such variable. */
  function SubstituteEnvVars(content: string, env: Env): (r: Result<string, string>)
    ensures r.Ok? <==> AllDefined(Names(Scan(content)), env)
    ensures r.Err? ==> r.error == MissingVariableMessage(FirstMissing(Names(Scan(content)), env).value)
    ensures r.Err? ==> FirstMissing(Names(Scan(content)), env).value !in env
  {
    Expand(Scan(content), env)
  }

  /** Text with no '}' holds no reference and comes back unchanged: in particular an
      unterminated `${`. */
  lemma {:induction false} SubstituteWithoutClose(content: string, env: Env)
    requires '}' !in content
    ensures SubstituteEnvVars(content, env) == Ok(content)
    decreases |content|
  {
    if content != [] {
      assert MatchAt(content).None? by {
        if |content| >= 2 && content[0] == '$' && content[1] == '{' {
          assert FindClose(content, 2).None?;
        }
      }
      assert Scan(content) == [Literal(content[0])] + Scan(content[1..]);
      SubstituteWithoutClose(content[1..], env);
      assert content == [content[0]] + content[1..];
    }
  }

  lemma ExpandLiteral(c: char, segments: seq<Segment>, env: Env)
    ensures Expand([Literal(c)] + segments, env) == Prepend([c], Expand(segments, env))
  {
    assert ([Literal(c)] + segments)[1..] == segments;
  }

  /** Where the expression does not match, the first character is kept and the scan moves on. */
  lemma SubstituteNoMatch(s: string, env: Env)
    requires s != [] && MatchAt(s).None?
    ensures SubstituteEnvVars(s, env) == Prepend([s[0]], SubstituteEnvVars(s[1..], env))
  {
    assert Scan(s) == [Literal(s[0])] + Scan(s[1..]);
    ExpandLiteral(s[0], Scan(s[1..]), env);
  }

  /** Characters other than '$' are copied to the output as they are. */
  lemma {:induction false} SubstituteLiteralChar(c: char, rest: string, env: Env)
    requires c != '$'
    ensures SubstituteEnvVars([c] + rest, env) == Prepend([c], SubstituteEnvVars(rest, env))
  {
    var s := [c] + rest;
    assert s[1..] == rest;
    SubstituteNoMatch(s, env);
  }

  /** `${}` does not match (the name needs a character), so it stays literal text. */
  lemma {:induction false} SubstituteEmptyBraces(rest: string, env: Env)
    ensures SubstituteEnvVars("${}" + rest, env) == Prepend("${}", SubstituteEnvVars(rest, env))
  {
    var s := "${}" + rest;
    var t := "}" + rest;
    var u := "{}" + rest;
    assert s[2] == '}';
    assert FindClose(s, 2) == Some(2);
    assert s[1..] == u;
    assert u == ['{'] + t;
    assert t == ['}'] + rest;
    SubstituteNoMatch(s, env);
    SubstituteLiteralChar('{', t, env);
    SubstituteLiteralChar('}', rest, env);
    match SubstituteEnvVars(rest, env)
    case Ok(text) =>
      assert "$" + (['{'] + (['}'] + text)) == "${}" + text;
    case Err(e) =>
  }

  /** A reference is replaced by the value as it is: the value is not scanned again,
      so a `${...}` inside a value stays in the output (single pass). */
  lemma {:induction false} SubstituteReference(name: string, rest: string, env: Env)
    requires ValidName(name) && name in env
    ensures SubstituteEnvVars("${" + name + "}" + rest, env) == Prepend(env[name], SubstituteEnvVars(rest, env))
  {
    var s := "${" + name + "}" + rest;
    var q := |name| + 2;
    assert s[q] == '}';
    assert forall k :: 2 <= k < q ==> s[k] == name[k - 2];
    assert FindClose(s, 2) == Some(q) by {
      FindCloseAt(s, 2, q);
    }
    assert MatchAt(s) == Some(q + 1);
    assert s[2..q] == name;
    assert s[q + 1..] == rest;
  }

  /** A reference to an unset variable fails the whole call, naming the variable. */
  lemma {:induction false} SubstituteMissing(name: string, rest: string, env: Env)
    requires ValidName(name) && name !in env
    ensures SubstituteEnvVars("${" + name + "}" + rest, env) == Err(MissingVariableMessage(name))
  {
    var s := "${" + name + "}" + rest;
    var q := |name| + 2;
    assert forall k :: 2 <= k < q ==> s[k] == name[k - 2];
    FindCloseAt(s, 2, q);
    assert MatchAt(s) == Some(q + 1);
    assert s[2..q] == name;
  }

  lemma {:induction false} FindCloseAt(s: string, from: nat, q: nat)
    requires from <= q < |s| && s[q] == '}'
    requires forall k :: from <= k < q ==> s[k] != '}'
    ensures FindClose(s, from) == Some(q)
    decreases q - from
  {
    if from < q {
      FindCloseAt(s, from + 1, q);
    }
  }

  // ---------------------------------------------------------------- required variables

  const RequiredVars: seq<string> := ["OPENROUTER_API_KEY"]

  /** `not os.getenv(var)`: unset, or set to the empty string. */
  predicate Unset(env: Env, name: string) {
    name !in env || env[name] == ""
  }

  /** `check_required_env_vars`: collects the required variables that are unset or empty
      (the list it prints) and answers whether there were none. */
  method CheckRequiredEnvVars(env: Env) returns (ok: bool, missing: seq<string>)
    ensures forall v :: v in missing <==> v in RequiredVars && Unset(env, v)
    ensures ok <==> missing == []
    ensures ok <==> "OPENROUTER_API_KEY" in env && env["OPENROUTER_API_KEY"] != ""
  {
    missing := [];
    var i := 0;
    while i < |RequiredVars|
      invariant 0 <= i <= |RequiredVars|
      invariant forall v :: v in missing <==> v in RequiredVars[..i] && Unset(env, v)
    {
      var name := RequiredVars[i];
      if Unset(env, name) {
        missing := missing + [name];
      }
      i := i + 1;
    }
    assert RequiredVars[..i] == RequiredVars;
    ok := missing == [];
    assert ok <==> !Unset(env, "OPENROUTER_API_KEY") by {
      if !ok {
        assert missing[0] in missing;
      } else {
        assert "OPENROUTER_API_KEY" !in missing;
      }
    }
  }
}
