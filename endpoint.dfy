/**
 * Where the page sends its prediction requests: the base URI chosen from the
 * environment, the secrets store or a local default, made to end with `/`,
 * followed by the path segment `predict`.
 */
module Endpoint {
  import opened PyJson

  const DefaultBase: string := "http://localhost:8000"
  const PredictSegment: string := "predict"

  predicate EndsWith(s: string, suffix: string) {
    |suffix| <= |s| && s[|s| - |suffix|..] == suffix
  }

  /** The test `endswith("/")`: false for the empty string. */
  predicate EndsWithSlash(s: string): (r: bool)
    ensures r <==> EndsWith(s, "/")
    ensures r ==> s != ""
  {
    |s| > 0 && s[|s| - 1] == '/'
  }

  /** Somewhere in `s` two slashes stand next to each other. */
  predicate HasDoubleSlash(s: string) {
    exists i :: 0 <= i < |s| - 1 && s[i] == '/' && s[i + 1] == '/'
  }

  /** An optional string as the Python value it is (None or a str). */
  function FromOptional(o: Option<string>): (r: Json)
    ensures r.Str? || r.Null?
    ensures Truthy(r) <==> o.Some? && o.value != ""
  {
    match o
    case Some(s) => Str(s)
    case None => Null
  }

  /**
   * The base URI: the environment variable if set and non-empty, else the
   * secret if set and non-empty, else the local default. An empty string
   * counts as absent, since it is falsy in the `or` chain.
   */
  function BaseUri(env: Option<string>, secret: Option<string>): (r: string)
    ensures env.Some? && env.value != "" ==> r == env.value
    ensures (env.None? || env.value == "") && secret.Some? && secret.value != "" ==> r == secret.value
    ensures (env.None? || env.value == "") && (secret.None? || secret.value == "") ==> r == DefaultBase
  {
    var vs := [FromOptional(env), FromOptional(secret), Str(DefaultBase)];
    var k := if Truthy(vs[0]) then 0 else if Truthy(vs[1]) then 1 else 2;
    OrChainSelects(vs, k);
    OrChain(vs).s
  }

  /** The resolved base URI is never empty, so the endpoint is never a bare path. */
  lemma BaseUriNonEmpty(env: Option<string>, secret: Option<string>)
    ensures BaseUri(env, secret) != ""
  {
  }

  /** The base URI with one `/` appended unless it already ends with one. */
  function WithTrailingSlash(base: string): (r: string)
    ensures EndsWithSlash(r)
    ensures EndsWithSlash(base) ==> r == base
    ensures !EndsWithSlash(base) ==> r == base + "/"
  {
    if EndsWithSlash(base) then base else base + "/"
  }

  /** The prediction endpoint: the normalised base URI followed by `predict`. */
  function PredictEndpoint(base: string): (r: string)
    ensures EndsWith(r, "/" + PredictSegment)
    ensures |base| < |r|
    ensures r[..|base|] == base
    ensures EndsWithSlash(base) ==> r == base + "predict"
    ensures !EndsWithSlash(base) ==> r == base + "/predict"
  {
    WithTrailingSlash(base) + PredictSegment
  }

  /** Adding the slash twice changes nothing. */
  lemma WithTrailingSlashIdempotent(base: string)
    ensures WithTrailingSlash(WithTrailingSlash(base)) == WithTrailingSlash(base)
  {
  }

  /**
   * The normalisation never introduces `//`: the endpoint has two adjacent
   * slashes exactly when the base URI already had them.
   */
  lemma PredictEndpointNoNewDoubleSlash(base: string)
    ensures HasDoubleSlash(PredictEndpoint(base)) <==> HasDoubleSlash(base)
  {
  }

  /** The endpoint the page uses, from the three configuration sources. */
  function ResolveEndpoint(env: Option<string>, secret: Option<string>): (r: string)
    ensures EndsWith(r, "/predict")
    ensures (env.None? || env.value == "") && (secret.None? || secret.value == "")
            ==> r == DefaultBase + "/predict"
  {
    assert "/" + PredictSegment == "/predict";
    PredictEndpoint(BaseUri(env, secret))
  }
}
