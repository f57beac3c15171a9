/** `load_and_validate_env`: checks a list of required environment variable
    names and reports every one that is unset or empty in a single error. */
module Env {
  import opened Outcomes
  import opened Text

  /** The process environment, as `os.getenv` sees it. */
  type Environment = map<string, string>

  const MissingPrefix := "Missing required environment variables: "

  /** `os.getenv(name)` is truthy: the name is present and its value is not the empty string. */
  predicate IsSet(env: Environment, name: string) {
    name in env && env[name] != ""
  }

  /** Every name in `names` is set in `env`. */
  predicate AllSet(env: Environment, names: seq<string>) {
    forall i :: 0 <= i < |names| ==> IsSet(env, names[i])
  }

  /** The names of `names` that `env` leaves unset or empty, in input order. */
  function Missing(env: Environment, names: seq<string>): seq<string> {
    if names == [] then []
    else
      var last := names[|names| - 1];
      Missing(env, names[..|names| - 1]) + (if IsSet(env, last) then [] else [last])
  }

  /** The text of the `ValueError` raised for the missing names. */
  function MissingMessage(missing: seq<string>): string {
    MissingPrefix + Join(missing, ", ")
  }

  /** What a call of `load_and_validate_env` does: return, or raise with the aggregated message. */
  function EnvCheck(env: Environment, names: seq<string>): (r: Status)
    ensures r.Pass? <==> AllSet(env, names)
  {
    NothingMissingIffAllSet(env, names);
    var missing := Missing(env, names);
    if missing == [] then Pass else Fail(MissingMessage(missing))
  }

  /** `load_and_validate_env(required_vars)`: collects the unset names in a loop,
      then raises once if any were found. */
  method LoadAndValidateEnv(env: Environment, required: seq<string>) returns (r: Status)
    ensures r == EnvCheck(env, required)
    ensures r.Pass? <==> AllSet(env, required)
    ensures r.Fail? ==> r.msg == MissingPrefix + Join(Missing(env, required), ", ")
  {
    var missing: seq<string> := [];
    for i := 0 to |required|
      invariant missing == Missing(env, required[..i])
    {
      assert required[..i + 1][..i] == required[..i];
      if !IsSet(env, required[i]) {
        missing := missing + [required[i]];
      }
    }
    assert required[..|required|] == required;
    if missing != [] {
      r := Fail(MissingMessage(missing));
    } else {
      r := Pass;
    }
  }

  /** A name is reported exactly when it is required and unset; a set name never is. */
  lemma {:induction false} MissingMembers(env: Environment, names: seq<string>)
    ensures forall x :: x in Missing(env, names) <==> x in names && !IsSet(env, x)
  {
    if names != [] {
      var init := names[..|names| - 1];
      MissingMembers(env, init);
      assert names == init + [names[|names| - 1]];
    }
  }

  /** Nothing is reported exactly when every required name is set. */
  lemma NothingMissingIffAllSet(env: Environment, names: seq<string>)
    ensures Missing(env, names) == [] <==> AllSet(env, names)
  {
    MissingMembers(env, names);
    if Missing(env, names) != [] {
      assert Missing(env, names)[0] in Missing(env, names);
    }
  }

  /** The report is the unset names in input order: it picks out, at increasing
      positions of `names`, exactly the positions whose name is unset. */
  lemma {:induction false} MissingInInputOrder(env: Environment, names: seq<string>) returns (pos: seq<int>)
    ensures |pos| == |Missing(env, names)|
    ensures forall k :: 0 <= k < |pos| ==> 0 <= pos[k] < |names| && names[pos[k]] == Missing(env, names)[k]
    ensures forall k, l :: 0 <= k < l < |pos| ==> pos[k] < pos[l]
    ensures forall i :: 0 <= i < |names| ==> (i in pos <==> !IsSet(env, names[i]))
  {
    if names == [] {
      pos := [];
    } else {
      var n := |names| - 1;
      var init := names[..n];
      var prev := MissingInInputOrder(env, init);
      assert forall i :: 0 <= i < n ==> init[i] == names[i];
      if IsSet(env, names[n]) {
        pos := prev;
      } else {
        pos := prev + [n];
        assert Missing(env, names) == Missing(env, init) + [names[n]];
      }
    }
  }

  /** The error message names every missing variable, not only the first. */
  lemma MessageNamesEveryMissing(env: Environment, names: seq<string>, k: int)
    requires 0 <= k < |Missing(env, names)|
    ensures EnvCheck(env, names).Fail?
    ensures Contains(EnvCheck(env, names).msg, Missing(env, names)[k])
  {
    var missing := Missing(env, names);
    JoinContainsEach(missing, ", ", k);
    ContainsInside(MissingPrefix, Join(missing, ", "), "", missing[k]);
    assert MissingPrefix + Join(missing, ", ") + "" == MissingMessage(missing);
  }
}
