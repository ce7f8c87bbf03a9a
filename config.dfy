/**
 * Loading the `.env` file into `$_ENV` and validating the required mail
 * configuration keys.
 */
module Config {
  import opened Optional
  import Php
  import Scan

  /** The keys that must be present and non-empty, in the order they are checked. */
  const RequiredEnv: seq<string> :=
    ["MAIL_HOST", "MAIL_PORT", "MAIL_USERNAME", "MAIL_PASSWORD", "MAIL_FROM_ADDRESS", "MAIL_FROM_NAME"]

  /**
   * `$_ENV` after `$_ENV[$key] = $value` has been run for each pair of the
   * parsed file, in file order.
   */
  function Merged(prior: map<string, string>, pairs: seq<(string, string)>): map<string, string>
    decreases |pairs|
  {
    if pairs == [] then prior
    else
      var last := pairs[|pairs| - 1];
      Merged(prior, pairs[..|pairs| - 1])[last.0 := last.1]
  }

  /** A key of the file maps to the value of its last occurrence in the file. */
  lemma {:induction false} MergedFileKey(prior: map<string, string>, pairs: seq<(string, string)>, i: nat)
    requires i < |pairs|
    requires forall j :: i < j < |pairs| ==> pairs[j].0 != pairs[i].0
    ensures pairs[i].0 in Merged(prior, pairs)
    ensures Merged(prior, pairs)[pairs[i].0] == pairs[i].1
  {
    if i < |pairs| - 1 {
      var init := pairs[..|pairs| - 1];
      assert init[i] == pairs[i];
      forall j | i < j < |init| ensures init[j].0 != init[i].0 {
        assert init[j] == pairs[j];
      }
      MergedFileKey(prior, init, i);
    }
  }

  /** A key the file does not mention keeps its prior value, or stays absent. */
  lemma {:induction false} MergedOtherKey(prior: map<string, string>, pairs: seq<(string, string)>, k: string)
    requires forall j :: 0 <= j < |pairs| ==> pairs[j].0 != k
    ensures k in Merged(prior, pairs) <==> k in prior
    ensures k in prior ==> Merged(prior, pairs)[k] == prior[k]
  {
    if pairs != [] {
      var init := pairs[..|pairs| - 1];
      forall j | 0 <= j < |init| ensures init[j].0 != k {
        assert init[j] == pairs[j];
      }
      MergedOtherKey(prior, init, k);
    }
  }

  /** The foreach that copies the parsed file into `$_ENV`. */
  method LoadEnv(prior: map<string, string>, pairs: seq<(string, string)>) returns (env: map<string, string>)
    ensures env == Merged(prior, pairs)
  {
    env := prior;
    for i := 0 to |pairs|
      invariant env == Merged(prior, pairs[..i])
    {
      assert pairs[..i + 1][..i] == pairs[..i];
      env := env[pairs[i].0 := pairs[i].1];
    }
    assert pairs[..|pairs|] == pairs;
  }

  /** `empty($_ENV[$key])`: the key is unset, or its value is "" or "0". */
  predicate EnvEmpty(env: map<string, string>, key: string) {
    key !in env || Php.EmptyString(env[key])
  }

  /** The index in RequiredEnv of the first key that fails, or None when all pass. */
  function ConfigFailure(env: map<string, string>): Option<nat> {
    Scan.FirstFailing(RequiredEnv, k => EnvEmpty(env, k))
  }

  /** With no failing key, every required key is set to a non-empty string. */
  lemma ConfigCompleteHasKeys(env: map<string, string>)
    requires ConfigFailure(env).None?
    ensures forall j :: 0 <= j < |RequiredEnv| ==> RequiredEnv[j] in env && !Php.EmptyString(env[RequiredEnv[j]])
  {
    forall j | 0 <= j < |RequiredEnv|
      ensures RequiredEnv[j] in env && !Php.EmptyString(env[RequiredEnv[j]])
    {
      assert !(k => EnvEmpty(env, k))(RequiredEnv[j]);
    }
  }

  /** The foreach over RequiredEnv that stops at the first empty key. */
  method FindMissingEnvKey(env: map<string, string>) returns (missing: Option<nat>)
    ensures missing == ConfigFailure(env)
  {
    for i := 0 to |RequiredEnv|
      invariant forall j :: 0 <= j < i ==> !EnvEmpty(env, RequiredEnv[j])
    {
      if EnvEmpty(env, RequiredEnv[i]) {
        Scan.FirstFailingIs(RequiredEnv, k => EnvEmpty(env, k), i);
        return Some(i);
      }
    }
    return None;
  }
}
