/**
 * Five example replies and one failed request, worked through the model.
 */
module Scenarios {
  import opened PyJson
  import opened Interpret
  import opened Presentation
  import opened TopThree
  import opened Page

  const HappyTable: seq<(string, Json)> := [("happy", Num(0.92)), ("sad", Num(0.05)), ("angry", Num(0.03))]
  const HappyReply: seq<(string, Json)> :=
    [("label", Str("happy")), ("confidence", Num(0.92)), ("probabilities", Obj(HappyTable))]

  lemma HappyFields()
    ensures ResolveLabel(HappyReply) == Str("happy")
    ensures ResolveConfidence(HappyReply) == Num(0.92)
    ensures ResolveProbs(HappyReply) == Obj(HappyTable)
  {
    assert DistinctKeys(HappyReply);
    LookupMember(HappyReply, 0);
    LookupMember(HappyReply, 1);
    LookupMember(HappyReply, 2);
  }

  lemma HappyEntries()
    ensures AllNumbers(HappyTable)
    ensures Entries(HappyTable) == [("happy", 0.92), ("sad", 0.05), ("angry", 0.03)]
  {
  }

  lemma HappyBody()
    ensures ChartBody(Obj(HappyReply), Obj(HappyTable)) == Charts([("happy", 0.92), ("sad", 0.05), ("angry", 0.03)], Palette, Palette)
  {
    HappyEntries();
    TopEntriesOfShortSorted([("happy", 0.92), ("sad", 0.05), ("angry", 0.03)]);
    PaletteWhole();
  }

  lemma HappyStyle()
    ensures StyleFor("happy") == Style("#111111", "#FACC1533")
  {
    assert Lower("happy") == "happy" == EmotionStyles[0].0;
  }

  /** `{"label":"happy","confidence":0.92,"probabilities":{"happy":0.92,"sad":0.05,"angry":0.03}}` */
  lemma HappyWithProbabilities(pct: real -> string)
    ensures Present(Decoded(Obj(HappyReply)), pct)
              == Shown(BadgePrefix + "happy" + " (" + pct(0.92) + ")",
                       Style("#111111", "#FACC1533"),
                       Charts([("happy", 0.92), ("sad", 0.05), ("angry", 0.03)], Palette, Palette))
  {
    HappyFields();
    assert Present(Decoded(Obj(HappyReply)), pct)
             == Shown(BadgeText("happy", Num(0.92), pct), StyleFor("happy"), ChartBody(Obj(HappyReply), Obj(HappyTable)));
    HappyBody();
    HappyStyle();
    BadgeWithConfidence("happy", Num(0.92), pct);
  }

  const AngryTable: seq<(string, Json)> := [("angry", Num(0.6)), ("fear", Num(0.3)), ("neutral", Num(0.1))]
  const AngryReply: seq<(string, Json)> := [("emotion", Str("Angry")), ("scores", Obj(AngryTable))]

  lemma AngryFields()
    ensures ResolveLabel(AngryReply) == Str("Angry")
    ensures ResolveConfidence(AngryReply) == Null
    ensures ResolveProbs(AngryReply) == Obj(AngryTable)
  {
    assert DistinctKeys(AngryReply);
    assert !HasKey(AngryReply, "label");
    assert !HasKey(AngryReply, "confidence");
    assert !HasKey(AngryReply, "probabilities");
    LookupMember(AngryReply, 0);
    LookupMember(AngryReply, 1);
  }

  lemma AngryEntries()
    ensures AllNumbers(AngryTable)
    ensures Entries(AngryTable) == [("angry", 0.6), ("fear", 0.3), ("neutral", 0.1)]
  {
  }

  lemma AngryBody()
    ensures ChartBody(Obj(AngryReply), Obj(AngryTable)) == Charts([("angry", 0.6), ("fear", 0.3), ("neutral", 0.1)], Palette, Palette)
  {
    AngryEntries();
    TopEntriesOfShortSorted([("angry", 0.6), ("fear", 0.3), ("neutral", 0.1)]);
    PaletteWhole();
  }

  lemma AngryStyle()
    ensures StyleFor("Angry") == Style("#FEE2E2", "#EF444433")
  {
    assert Lower("Angry") == "angry" == EmotionStyles[2].0;
  }

  /** `{"emotion":"Angry","scores":{"angry":0.6,"fear":0.3,"neutral":0.1}}`: no confidence, so no suffix. */
  lemma AngryFromScores(pct: real -> string)
    ensures Present(Decoded(Obj(AngryReply)), pct)
              == Shown(BadgePrefix + "Angry",
                       Style("#FEE2E2", "#EF444433"),
                       Charts([("angry", 0.6), ("fear", 0.3), ("neutral", 0.1)], Palette, Palette))
  {
    AngryFields();
    assert Present(Decoded(Obj(AngryReply)), pct)
             == Shown(BadgeText("Angry", Null, pct), StyleFor("Angry"), ChartBody(Obj(AngryReply), Obj(AngryTable)));
    AngryBody();
    AngryStyle();
    BadgeWithoutConfidence("Angry", Null, pct);
  }

  lemma UnknownStyle()
    ensures StyleFor("unknown") == DefaultStyle
  {
    assert Lower("unknown") == "unknown";
    EmotionStylesKeys();
    assert "unknown" !in KnownEmotions;
  }

  lemma EmptyFields()
    ensures ResolveLabel([]) == Str("unknown")
    ensures ResolveConfidence([]) == Null
    ensures ResolveProbs([]) == Obj([])
  {
    var empty: seq<(string, Json)> := [];
    assert !HasKey(empty, "label");
  }

  /** `{}`: the label is "unknown", there is no suffix, and the raw payload is shown. */
  lemma EmptyReply(pct: real -> string)
    ensures Present(Decoded(Obj([])), pct)
              == Shown(BadgePrefix + "unknown", DefaultStyle, RawPayload(Obj([])))
  {
    EmptyFields();
    UnknownStyle();
    BadgeWithoutConfidence("unknown", Null, pct);
  }

  /** A request failure shows only the error message, never a badge or a chart. */
  lemma UnreachableService(details: string, pct: real -> string)
    ensures Present(RequestFailed(details), pct) == ApiError("API call failed: " + details)
    ensures !Present(RequestFailed(details), pct).Shown?
  {
  }

  /** A top-level JSON array has no `.get`: the page fails outside the request handler. */
  lemma ArrayReplyIsUnhandled(items: seq<Json>, pct: real -> string)
    ensures Present(Decoded(Arr(items)), pct) == Unhandled
  {
  }

  /** `{"emotion": null}` resolves the label to None, whose `.lower()` fails. */
  lemma NullEmotionIsUnhandled(pct: real -> string)
    ensures Present(Decoded(Obj([("emotion", Null)])), pct) == Unhandled
  {
  }
}
