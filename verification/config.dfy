/** The Azure assistant configuration read from the process environment
    (`AzureConfig` and its `from_env` class method in main.py). */
module AzureConfig {
  import opened Wrappers

  const ApiKeyVar := "AZURE_OPENAI_API_KEY"
  const EndpointVar := "AZURE_OPENAI_ENDPOINT"
  const DeploymentVar := "AZURE_OPENAI_CHAT_COMPLETION_DEPLOYED_MODEL_NAME"

  /** The three required variables, in the order the missing ones are reported. */
  const RequiredVars := [ApiKeyVar, EndpointVar, DeploymentVar]

  const DefaultApiVersion := "2024-10-01-preview"
  const MissingPrefix := "Missing required environment variables: "

  /** What `os.getenv` returned for each of the three variables (None when unset). */
  datatype Env = Env(apiKey: Option<string>, endpoint: Option<string>, deploymentName: Option<string>)

  datatype Config = Config(apiKey: string, endpoint: string, deploymentName: string, apiVersion: string)

  /** Python truthiness of an optional string: an unset variable and an empty one are both falsy. */
  predicate Truthy(v: Option<string>)
  {
    v.Some? && v.value != ""
  }

  /** The environment's value for the i-th required variable. */
  function ValueOf(env: Env, i: nat): Option<string>
    requires i < |RequiredVars|
  {
    if i == 0 then env.apiKey else if i == 1 then env.endpoint else env.deploymentName
  }

  /** Position of a name in `RequiredVars`. */
  function Rank(name: string): nat
  {
    if name == ApiKeyVar then 0 else if name == EndpointVar then 1 else 2
  }

  predicate Complete(env: Env)
  {
    Truthy(env.apiKey) && Truthy(env.endpoint) && Truthy(env.deploymentName)
  }

  /** The names of the falsy variables: each required name whose value is missing,
      once, in the order of `RequiredVars`. */
  function Missing(env: Env): (names: seq<string>)
    ensures |names| <= |RequiredVars|
    ensures forall i :: 0 <= i < |RequiredVars| ==> (RequiredVars[i] in names <==> !Truthy(ValueOf(env, i)))
    ensures forall n :: n in names ==> n in RequiredVars
    ensures forall i, j :: 0 <= i < j < |names| ==> Rank(names[i]) < Rank(names[j])
    ensures names == [] <==> Complete(env)
  {
    (if Truthy(env.apiKey) then [] else [ApiKeyVar])
    + (if Truthy(env.endpoint) then [] else [EndpointVar])
    + (if Truthy(env.deploymentName) then [] else [DeploymentVar])
  }

  /** True when every character of s is c. */
  predicate AllChar(s: string, c: char)
  {
    forall k :: 0 <= k < |s| ==> s[k] == c
  }

  /** True when s is non-empty and its last character is c. */
  predicate EndsWith(s: string, c: char)
  {
    |s| > 0 && s[|s| - 1] == c
  }

  /** Python's `s.rstrip(c)` for a single character c: s without its longest suffix made only of c. */
  function RStrip(s: string, c: char): (r: string)
    ensures r <= s
    ensures AllChar(s[|r|..], c)
    ensures !EndsWith(r, c)
    decreases |s|
  {
    if EndsWith(s, c) then RStrip(s[..|s| - 1], c) else s
  }

  /** `", ".join(names)`. */
  function Join(names: seq<string>, sep: string): string
  {
    if |names| == 0 then ""
    else if |names| == 1 then names[0]
    else names[0] + sep + Join(names[1..], sep)
  }

  /** The `ValueError` message raised when some variables are missing. */
  function MissingMessage(names: seq<string>): (msg: string)
    ensures MissingPrefix <= msg
    ensures |names| == 1 ==> msg == MissingPrefix + names[0]
    ensures |names| == 2 ==> msg == MissingPrefix + names[0] + ", " + names[1]
    ensures |names| == 3 ==> msg == MissingPrefix + names[0] + ", " + names[1] + ", " + names[2]
  {
    JoinUpToThree(names, ", ");
    MissingPrefix + Join(names, ", ")
  }

  /** The join of one, two or three names, written out. */
  lemma JoinUpToThree(names: seq<string>, sep: string)
    ensures |names| == 1 ==> Join(names, sep) == names[0]
    ensures |names| == 2 ==> Join(names, sep) == names[0] + sep + names[1]
    ensures |names| == 3 ==> Join(names, sep) == names[0] + sep + names[1] + sep + names[2]
  {
  }

  /** `AzureConfig.from_env()` on the given environment: either the ordered list of
      missing variable names (the `ValueError`) or the configuration. */
  function FromEnv(env: Env): (r: Result<Config, seq<string>>)
    ensures r.Failure? <==> !Truthy(env.apiKey) || !Truthy(env.endpoint) || !Truthy(env.deploymentName)
    ensures r.Failure? ==> r.error == Missing(env) && r.error != []
    ensures r.Success? ==> r.value.apiKey == env.apiKey.value
    ensures r.Success? ==> r.value.deploymentName == env.deploymentName.value
    ensures r.Success? ==> r.value.apiVersion == DefaultApiVersion
    ensures r.Success? ==> r.value.endpoint <= env.endpoint.value
    ensures r.Success? ==> AllChar(env.endpoint.value[|r.value.endpoint|..], '/')
    ensures r.Success? ==> !EndsWith(r.value.endpoint, '/')
  {
    if !Complete(env) then
      Failure(Missing(env))
    else
      Success(Config(env.apiKey.value, RStrip(env.endpoint.value, '/'), env.deploymentName.value, DefaultApiVersion))
  }

  /** Any split of s into a part not ending in c followed by a run of c is the one `RStrip` makes. */
  lemma {:induction false} RStripUnique(s: string, c: char, p: string, q: string)
    requires s == p + q
    requires AllChar(q, c)
    requires !EndsWith(p, c)
    ensures RStrip(s, c) == p
    decreases |q|
  {
    if |q| == 0 {
      assert s == p;
    } else {
      assert s[|s| - 1] == q[|q| - 1];
      assert s[..|s| - 1] == p + q[..|q| - 1];
      RStripUnique(s[..|s| - 1], c, p, q[..|q| - 1]);
    }
  }

  /** Stripping twice strips nothing more. */
  lemma RStripIdempotent(s: string, c: char)
    ensures RStrip(RStrip(s, c), c) == RStrip(s, c)
  {
    var r := RStrip(s, c);
    assert r == r + [];
    RStripUnique(r, c, r, []);
  }

  /** Appending slashes to an endpoint does not change the configured endpoint. */
  lemma TrailingSlashesIgnored(env: Env, slashes: string)
    requires Complete(env)
    requires AllChar(slashes, '/')
    ensures FromEnv(env.(endpoint := Some(env.endpoint.value + slashes))).Success?
    ensures FromEnv(env.(endpoint := Some(env.endpoint.value + slashes))).value == FromEnv(env).value
  {
    var e := env.endpoint.value;
    var r := RStrip(e, '/');
    var tail := e[|r|..];
    assert e == r + tail;
    assert e + slashes == r + (tail + slashes);
    assert AllChar(tail + slashes, '/') by {
      forall k | 0 <= k < |tail + slashes|
        ensures (tail + slashes)[k] == '/'
      {
        if k < |tail| { assert (tail + slashes)[k] == tail[k]; }
        else { assert (tail + slashes)[k] == slashes[k - |tail|]; }
      }
    }
    RStripUnique(e + slashes, '/', r, tail + slashes);
  }

  /** Validation looks at the raw value, stripping comes after: an endpoint made only of
      slashes is accepted and configured as the empty string. */
  lemma SlashOnlyEndpointBecomesEmpty(env: Env)
    requires Truthy(env.apiKey) && Truthy(env.deploymentName)
    requires env.endpoint.Some? && env.endpoint.value != "" && AllChar(env.endpoint.value, '/')
    ensures FromEnv(env).Success?
    ensures FromEnv(env).value.endpoint == ""
  {
    assert env.endpoint.value == [] + env.endpoint.value;
    RStripUnique(env.endpoint.value, '/', [], env.endpoint.value);
  }
}
