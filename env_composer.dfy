/**
 * `buildEnvVars`: the container's environment. When the request names a
 * process, the first entry is `fprocess` set to it and one entry per
 * environment variable follows; when it names none, the list is empty
 * whatever variables the request holds. The variables come from iterating a
 * Go map, so their order is unspecified: the contract fixes the entries, not
 * their order.
 */
module EnvComposer {
  import opened DeployObjects

  /** The reserved variable that tells the watchdog which process to run. */
  const FProcessName := "fprocess"

  /** The entries of `env` have pairwise distinct names. */
  ghost predicate DistinctNames(env: seq<EnvVar>)
  {
    forall i, j :: 0 <= i < j < |env| ==> env[i].name != env[j].name
  }

  /** Variable `x` is one of the request's environment variables. */
  ghost predicate FromMap(envVars: map<string, string>, x: EnvVar)
  {
    x.name in envVars && envVars[x.name] == x.value
  }

  /** `env` is a list `buildEnvVars` may return for this process and these variables. */
  ghost predicate ComposedEnv(env: seq<EnvVar>, envProcess: string, envVars: map<string, string>)
  {
    if envProcess == "" then env == []
    else
      && |env| == 1 + |envVars|
      && env[0] == EnvVar(FProcessName, envProcess)
      && (forall i :: 1 <= i < |env| ==> FromMap(envVars, env[i]))
      && DistinctNames(env[1..])
  }

  /** `buildEnvVars`, iterating the variables in an arbitrary order. */
  method BuildEnvVars(request: CreateFunctionRequest) returns (env: seq<EnvVar>)
    ensures ComposedEnv(env, request.envProcess, request.envVars)
  {
    var vars := request.envVars;
    env := [];
    if |request.envProcess| > 0 {
      env := env + [EnvVar(FProcessName, request.envProcess)];
    }
    var remaining := vars.Keys;
    assert |remaining| == |vars|;
    while remaining != {}
      invariant remaining <= vars.Keys
      invariant |remaining| <= |vars|
      invariant request.envProcess == "" ==> env == []
      invariant request.envProcess != "" ==>
        && |env| + |remaining| == 1 + |vars|
        && env[0] == EnvVar(FProcessName, request.envProcess)
        && (forall i :: 1 <= i < |env| ==> FromMap(vars, env[i]) && env[i].name !in remaining)
        && DistinctNames(env[1..])
      decreases remaining
    {
      var k :| k in remaining;
      if |request.envProcess| > 0 {
        env := env + [EnvVar(k, vars[k])];
      }
      remaining := remaining - {k};
    }
  }

  /** The names in `env`. */
  function Names(env: seq<EnvVar>): set<string>
  {
    if env == [] then {} else {env[0].name} + Names(env[1..])
  }

  lemma {:induction false} NamesMembers(env: seq<EnvVar>, k: string)
    ensures k in Names(env) <==> exists i :: 0 <= i < |env| && env[i].name == k
    decreases |env|
  {
    if env != [] {
      NamesMembers(env[1..], k);
      if exists i :: 0 <= i < |env| && env[i].name == k {
        var i :| 0 <= i < |env| && env[i].name == k;
        if i > 0 {
          assert env[1..][i - 1].name == k;
        }
      }
    }
  }

  lemma {:induction false} DistinctNamesSize(env: seq<EnvVar>)
    requires DistinctNames(env)
    ensures |Names(env)| == |env|
    decreases |env|
  {
    if env != [] {
      assert DistinctNames(env[1..]) by {
        forall i, j | 0 <= i < j < |env[1..]| ensures env[1..][i].name != env[1..][j].name {
          assert env[1..][i] == env[i + 1] && env[1..][j] == env[j + 1];
        }
      }
      DistinctNamesSize(env[1..]);
      NamesMembers(env[1..], env[0].name);
    }
  }

  lemma SubsetOfSameSize(a: set<string>, b: set<string>)
    requires a <= b && |a| == |b|
    ensures a == b
  {
    assert a + b == b && a * b == a && a - b == {};
    assert |b - a| == 0;
    assert b - a == {};

  }

  /**
   * Every environment variable of the request appears in a composed list
   * with its value: distinct names drawn from the map, as many as the map
   * has keys, are all of its keys.
   */
  lemma ComposedEnvCovers(env: seq<EnvVar>, envProcess: string, envVars: map<string, string>, k: string)
    requires ComposedEnv(env, envProcess, envVars)
    requires envProcess != "" && k in envVars
    ensures exists i :: 1 <= i < |env| && env[i] == EnvVar(k, envVars[k])
  {
    var rest := env[1..];
    DistinctNamesSize(rest);
    assert Names(rest) <= envVars.Keys by {
      forall n | n in Names(rest) ensures n in envVars {
        NamesMembers(rest, n);
        var i :| 0 <= i < |rest| && rest[i].name == n;
        assert FromMap(envVars, env[i + 1]);
      }
    }
    assert |envVars.Keys| == |envVars|;
    SubsetOfSameSize(Names(rest), envVars.Keys);
    NamesMembers(rest, k);
    var i :| 0 <= i < |rest| && rest[i].name == k;
    assert FromMap(envVars, env[i + 1]);
  }

  lemma {:induction false} DistinctMultiplicity(env: seq<EnvVar>, x: EnvVar)
    requires DistinctNames(env)
    ensures multiset(env)[x] == if x in env then 1 else 0
    decreases |env|
  {
    if env != [] {
      assert DistinctNames(env[1..]) by {
        forall i, j | 0 <= i < j < |env[1..]| ensures env[1..][i].name != env[1..][j].name {
          assert env[1..][i] == env[i + 1] && env[1..][j] == env[j + 1];
        }
      }
      DistinctMultiplicity(env[1..], x);
      assert env == [env[0]] + env[1..];
    }
  }

  /**
   * Two lists `buildEnvVars` may return for the same request hold the same
   * entries with the same multiplicities: they differ at most in the order
   * the Go map was iterated.
   */
  lemma ComposedEnvUniqueUpToOrder(e1: seq<EnvVar>, e2: seq<EnvVar>, envProcess: string, envVars: map<string, string>)
    requires ComposedEnv(e1, envProcess, envVars) && ComposedEnv(e2, envProcess, envVars)
    ensures multiset(e1) == multiset(e2)
    ensures |e1| > 0 ==> e1[0] == e2[0]
  {
    if envProcess != "" {
      var r1, r2 := e1[1..], e2[1..];
      forall x ensures multiset(r1)[x] == multiset(r2)[x] {
        DistinctMultiplicity(r1, x);
        DistinctMultiplicity(r2, x);
        if x in r1 {
          var i :| 0 <= i < |r1| && r1[i] == x;
          assert FromMap(envVars, e1[i + 1]);
          ComposedEnvCovers(e2, envProcess, envVars, x.name);
        }
        if x in r2 {
          var i :| 0 <= i < |r2| && r2[i] == x;
          assert FromMap(envVars, e2[i + 1]);
          ComposedEnvCovers(e1, envProcess, envVars, x.name);
        }
      }
      assert multiset(r1) == multiset(r2);
      assert e1 == [e1[0]] + r1 && e2 == [e2[0]] + r2;
    }
  }
}
