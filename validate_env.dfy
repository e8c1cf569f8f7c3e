/** The backend's start-up check of its environment
    (`backend/src/utils/validateEnv.ts`): every required variable must be set
    to a non-empty value, and the first one that is not stops the server with
    an error naming it. Loading the `.env` file is not modelled: the
    environment is a parameter. */
module ValidateEnv {
  import opened Wrappers

  /** `requiredEnvVars`, in the order they are checked. */
  const RequiredEnvVars: seq<string> := ["MONGODB_URI", "JWT_SECRET", "PORT"]

  /** The message of the error thrown for a missing variable. */
  function MissingMessage(key: string): (m: string)
    ensures |m| == |"Falta la variable de entorno: "| + |key|
    ensures m[|m| - |key|..] == key
  {
    "Falta la variable de entorno: " + key
  }

  /** `process.env[key]` is truthy: present and not the empty string. */
  predicate IsSet(env: map<string, string>, key: string)
  {
    key in env && env[key] != ""
  }

  /** The first of `keys` that is not set, if any. */
  function FirstUnset(keys: seq<string>, env: map<string, string>): (r: Option<string>)
    ensures r.None? <==> forall i :: 0 <= i < |keys| ==> IsSet(env, keys[i])
    ensures r.Some? ==> r.value in keys && !IsSet(env, r.value)
  {
    if keys == [] then None
    else if !IsSet(env, keys[0]) then Some(keys[0])
    else FirstUnset(keys[1..], env)
  }

  /** The key reported is the first unset one: every key before it is set. */
  lemma {:induction false} FirstUnsetIsFirst(keys: seq<string>, env: map<string, string>, i: int)
    requires 0 <= i < |keys| && !IsSet(env, keys[i])
    requires forall j :: 0 <= j < i ==> IsSet(env, keys[j])
    ensures FirstUnset(keys, env) == Some(keys[i])
  {
    if i > 0 {
      FirstUnsetIsFirst(keys[1..], env, i - 1);
    }
  }

  /** The check: pass when every required variable is set, and otherwise fail
      with the message for the first one that is not. */
  method Validate(env: map<string, string>) returns (r: Outcome<string>)
    ensures r.Pass? <==> forall i :: 0 <= i < |RequiredEnvVars| ==> IsSet(env, RequiredEnvVars[i])
    ensures r.Fail? ==>
      FirstUnset(RequiredEnvVars, env).Some? && r.error == MissingMessage(FirstUnset(RequiredEnvVars, env).value)
  {
    var i := 0;
    while i < |RequiredEnvVars|
      invariant 0 <= i <= |RequiredEnvVars|
      invariant forall j :: 0 <= j < i ==> IsSet(env, RequiredEnvVars[j])
      invariant FirstUnset(RequiredEnvVars, env) == FirstUnset(RequiredEnvVars[i..], env)
    {
      var key := RequiredEnvVars[i];
      if !IsSet(env, key) {
        return Fail(MissingMessage(key));
      }
      assert RequiredEnvVars[i..][1..] == RequiredEnvVars[i + 1..];
      i := i + 1;
    }
    return Pass;
  }

  /** Variables outside the required list never change the verdict. */
  lemma OtherVariablesDoNotMatter(env: map<string, string>, key: string, value: string)
    requires key !in RequiredEnvVars
    ensures FirstUnset(RequiredEnvVars, env[key := value]) == FirstUnset(RequiredEnvVars, env)
  {
    assert forall i :: 0 <= i < |RequiredEnvVars| ==>
      (IsSet(env[key := value], RequiredEnvVars[i]) <==> IsSet(env, RequiredEnvVars[i]));
    FirstUnsetDependsOnlyOnKeys(RequiredEnvVars, env[key := value], env);
  }

  /** Two environments that agree on which of `keys` are set have the same
      first unset key. */
  lemma {:induction false} FirstUnsetDependsOnlyOnKeys(keys: seq<string>, e1: map<string, string>, e2: map<string, string>)
    requires forall i :: 0 <= i < |keys| ==> (IsSet(e1, keys[i]) <==> IsSet(e2, keys[i]))
    ensures FirstUnset(keys, e1) == FirstUnset(keys, e2)
  {
    if keys != [] && IsSet(e1, keys[0]) {
      FirstUnsetDependsOnlyOnKeys(keys[1..], e1, e2);
    }
  }

  /** An empty value counts as missing: setting any variable to the empty
      string gives the same verdict as removing it from the environment. */
  lemma EmptyValueIsMissing(env: map<string, string>, k: string)
    ensures FirstUnset(RequiredEnvVars, env[k := ""]) == FirstUnset(RequiredEnvVars, env - {k})
  {
    FirstUnsetDependsOnlyOnKeys(RequiredEnvVars, env[k := ""], env - {k});
  }
}
