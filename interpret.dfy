/**
 * The three fields the page reads from the decoded reply, each with its
 * fallback chain of keys.
 */
module Interpret {
  import opened PyJson

  /**
   * The label: the `label` value if truthy, else the `emotion` value if the
   * key is present, else the string "unknown".
   */
  function ResolveLabel(data: seq<(string, Json)>): (r: Json)
    ensures Truthy(Get(data, "label")) ==> r == Get(data, "label")
    ensures !Truthy(Get(data, "label")) && HasKey(data, "emotion") ==> Lookup(data, "emotion") == Some(r)
    ensures !Truthy(Get(data, "label")) && !HasKey(data, "emotion") ==> r == Str("unknown")
  {
    var vs := [Get(data, "label"), GetOr(data, "emotion", Str("unknown"))];
    OrChainSelects(vs, if Truthy(vs[0]) then 0 else 1);
    OrChain(vs)
  }

  /** The confidence: the stored value, or None when the key is absent. */
  function ResolveConfidence(data: seq<(string, Json)>): (r: Json)
    ensures !HasKey(data, "confidence") ==> r == Null
    ensures HasKey(data, "confidence") ==> Lookup(data, "confidence") == Some(r)
  {
    Get(data, "confidence")
  }

  /**
   * The probability table: the `probabilities` value if truthy, else the
   * `scores` value if truthy, else an empty dict.
   */
  function ResolveProbs(data: seq<(string, Json)>): (r: Json)
    ensures Truthy(Get(data, "probabilities")) ==> r == Get(data, "probabilities")
    ensures !Truthy(Get(data, "probabilities")) && Truthy(Get(data, "scores")) ==> r == Get(data, "scores")
    ensures !Truthy(Get(data, "probabilities")) && !Truthy(Get(data, "scores")) ==> r == Obj([])
  {
    var vs := [Get(data, "probabilities"), Get(data, "scores"), Obj([])];
    OrChainSelects(vs, if Truthy(vs[0]) then 0 else if Truthy(vs[1]) then 1 else 2);
    OrChain(vs)
  }

  /**
   * The label is the `emotion` value whenever `label` is missing or falsy
   * and `emotion` is present, even when that value is itself empty or null;
   * the literal "unknown" appears only when `emotion` is absent.
   */
  lemma LabelFallsBackToEmotion(data: seq<(string, Json)>, v: Json)
    requires DistinctKeys(data)
    requires ("emotion", v) in data
    requires !Truthy(Get(data, "label"))
    ensures ResolveLabel(data) == v
  {
  }

  /** An empty `probabilities` table does not hide a non-empty `scores` table. */
  lemma EmptyProbabilitiesDoNotHideScores(data: seq<(string, Json)>, scores: seq<(string, Json)>)
    requires DistinctKeys(data)
    requires ("probabilities", Obj([])) in data
    requires ("scores", Obj(scores)) in data
    requires scores != []
    ensures ResolveProbs(data) == Obj(scores)
  {
  }

  /** The probability field is truthy exactly when `probabilities` or `scores` is. */
  lemma ProbsTruthyIff(data: seq<(string, Json)>)
    ensures Truthy(ResolveProbs(data)) <==> Truthy(Get(data, "probabilities")) || Truthy(Get(data, "scores"))
  {
  }
}
