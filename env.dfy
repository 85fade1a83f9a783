/** Checking the required environment variables (lib/env.ts). The process environment is
    passed in as a map; an unset variable is a missing key. */
module Env {
  import opened Strings
  import opened Sequences

  /** `requiredEnvVars`. */
  const RequiredEnvVars: seq<string> := ["NEXT_PUBLIC_SITE_URL"]

  type Environment = map<string, string>

  datatype Checked<T> = Ok(value: T) | Error(message: string)

  /** `!process.env[name]`: unset or empty. */
  predicate Missing(env: Environment, name: string)
  {
    name !in env || env[name] == ""
  }

  const Header := "Missing required environment variables:"
  const Footer := "Make sure these are set in your .env.local file."

  /** The message `validateEnv` throws: a header line, one "- NAME" line per missing
      variable, an empty line and a hint. */
  function MissingMessage(missing: seq<string>): string
  {
    Header + "\n" + Join(seq(|missing|, i requires 0 <= i < |missing| => "- " + missing[i]), "\n") + "\n\n" + Footer
  }

  /** The required variables that are missing, in their listed order. */
  function MissingVars(required: seq<string>, env: Environment): (missing: seq<string>)
    ensures forall v :: v in missing <==> v in required && Missing(env, v)
    ensures IsSubsequence(missing, required)
  {
    var missing := Filter(v => Missing(env, v), required);
    forall v ensures v in missing <==> v in required && Missing(env, v) {
      FilterMembership(v => Missing(env, v), required, v);
    }
    missing
  }

  /** `validateEnv` over a list of required names. */
  function Validate(required: seq<string>, env: Environment): (r: Checked<()>)
    ensures r.Error? <==> exists i :: 0 <= i < |required| && Missing(env, required[i])
    ensures r.Error? ==> r.message == MissingMessage(MissingVars(required, env))
  {
    var missing := MissingVars(required, env);
    if |missing| > 0 then
      assert missing[0] in missing;
      Error(MissingMessage(missing))
    else
      assert forall i :: 0 <= i < |required| ==> required[i] !in missing;
      Ok(())
  }

  /** `validateEnv()` itself. */
  function ValidateEnv(env: Environment): (r: Checked<()>)
    ensures r.Ok? <==> "NEXT_PUBLIC_SITE_URL" in env && env["NEXT_PUBLIC_SITE_URL"] != ""
  {
    Validate(RequiredEnvVars, env)
  }

  /** The lines of the error message are the header, one "- NAME" line per missing
      variable in order, an empty line and the hint (names never contain a newline). */
  lemma MissingMessageLines(missing: seq<string>)
    requires |missing| > 0
    requires forall k :: 0 <= k < |missing| ==> '\n' !in missing[k]
    ensures Split(MissingMessage(missing), '\n')
         == [Header] + seq(|missing|, i requires 0 <= i < |missing| => "- " + missing[i]) + ["", Footer]
  {
    var items := seq(|missing|, i requires 0 <= i < |missing| => "- " + missing[i]);
    forall k | 0 <= k < |items| ensures '\n' !in items[k] {
      assert items[k] == "- " + missing[k];
    }
    var parts := [Header] + items + ["", Footer];
    forall k | 0 <= k < |parts| ensures '\n' !in parts[k] {
      if k == 0 {
        assert parts[k] == Header;
      } else if k < |parts| - 2 {
        assert parts[k] == items[k - 1];
      } else if k == |parts| - 2 {
        assert parts[k] == "";
      } else {
        assert parts[k] == Footer;
        FooterIsOneLine();
      }
    }
    assert Join(parts, "\n") == MissingMessage(missing) by {
      JoinSplice(items, ["", Footer]);
      assert Join(["", Footer], "\n") == "" + "\n" + Footer;
      assert [Header] + (items + ["", Footer]) == parts;
    }
    SplitJoin(parts, '\n');
  }

  lemma FooterIsOneLine()
    ensures '\n' !in Footer
  {
    NoNewlineIn4("Make sure ", "these are set ", "in your .env", ".local file.");
  }

  lemma NoNewlineIn4(a: string, b: string, c: string, d: string)
    requires '\n' !in a && '\n' !in b && '\n' !in c && '\n' !in d
    ensures '\n' !in a + b + c + d
  {
  }

  lemma {:induction false} JoinSplice(a: seq<string>, b: seq<string>)
    requires |a| >= 1 && |b| >= 1
    ensures Join(a + b, "\n") == Join(a, "\n") + "\n" + Join(b, "\n")
    decreases |a|
  {
    if |a| == 1 {
      assert a + b == [a[0]] + b;
    } else {
      JoinSplice(a[1..], b);
      assert a + b == [a[0]] + (a[1..] + b);
      assert [a[0]] + a[1..] == a;
    }
  }

  /** `getEnvVar(name)`: the value when it is set and non-empty, otherwise an error naming
      the variable. */
  function GetEnvVar(env: Environment, name: string): (r: Checked<string>)
    ensures r.Ok? <==> !Missing(env, name)
    ensures r.Ok? ==> r.value == env[name] && r.value != ""
    ensures r.Error? ==> r.message == "Missing required environment variable: " + name
  {
    if Missing(env, name) then Error("Missing required environment variable: " + name) else Ok(env[name])
  }

  /** When `validateEnv` passes, `getEnvVar` succeeds for every required name. */
  lemma ValidatedVarsAreReadable(env: Environment, name: string)
    requires ValidateEnv(env).Ok? && name in RequiredEnvVars
    ensures GetEnvVar(env, name).Ok?
  {
  }
}
