/**
 * How a resolved prediction is shown: the badge text with its optional
 * confidence suffix, the badge colours looked up by lower-cased label, and
 * the chart palette.
 */
module Presentation {
  import opened PyJson

  /** A badge colour pair: text colour and translucent background. */
  datatype Style = Style(fg: string, bg: string)

  /** The badge colours of the seven known emotions, keyed by lower-case name. */
  const EmotionStyles: seq<(string, Style)> := [
    ("happy",    Style("#111111", "#FACC1533")),
    ("sad",      Style("#DBEAFE", "#3B82F633")),
    ("angry",    Style("#FEE2E2", "#EF444433")),
    ("fear",     Style("#EDE9FE", "#8B5CF633")),
    ("surprise", Style("#FCE7F3", "#EC489933")),
    ("disgust",  Style("#ECFDF5", "#10B98133")),
    ("neutral",  Style("#F3F4F6", "#9CA3AF33"))
  ]

  /** The names the style table knows, in table order. */
  const KnownEmotions: seq<string> :=
    Keys(EmotionStyles)

  /** The style for any label outside the table: white text on near-transparent white. */
  const DefaultStyle: Style := Style("#FFFFFF", "#FFFFFF22")

  /** The chart colours; each chart takes a prefix of this list. */
  const Palette: seq<string> := ["#7C3AED", "#EC4899", "#F59E0B"]

  /** The text before the label in the badge. */
  const BadgePrefix: string := "\U{1F469} Predicted Emotion: "

  function LowerChar(c: char): (r: char)
    ensures 'A' <= c <= 'Z' ==> r as int == c as int + 32
    ensures !('A' <= c <= 'Z') ==> r == c
  {
    if 'A' <= c <= 'Z' then (c as int + 32) as char else c
  }

  /** `str.lower()` on the letters A to Z; every other character is kept. */
  function Lower(s: string): (r: string)
    ensures |r| == |s|
    ensures forall i :: 0 <= i < |s| ==> r[i] == LowerChar(s[i])
  {
    if s == [] then [] else [LowerChar(s[0])] + Lower(s[1..])
  }

  /** Two labels that differ only in the case of their letters. */
  predicate SameIgnoringCase(a: string, b: string) {
    |a| == |b| && forall i :: 0 <= i < |a| ==> LowerChar(a[i]) == LowerChar(b[i])
  }

  /** The table's keys are the seven emotions, each once. */
  lemma EmotionStylesKeys()
    ensures KnownEmotions == ["happy", "sad", "angry", "fear", "surprise", "disgust", "neutral"]
    ensures DistinctKeys(EmotionStyles)
  {
    var names := ["happy", "sad", "angry", "fear", "surprise", "disgust", "neutral"];
    assert forall i :: 0 <= i < 7 ==> KnownEmotions[i] == EmotionStyles[i].0 == names[i];
  }

  /**
   * The style of a label: the table entry under the label's lower-case form,
   * or the default style when the table has no such entry.
   */
  function StyleFor(name: string): (r: Style)
    ensures Lower(name) !in KnownEmotions ==> r == DefaultStyle
    ensures forall i :: 0 <= i < |EmotionStyles| && EmotionStyles[i].0 == Lower(name)
              ==> r == EmotionStyles[i].1
  {
    EmotionStylesKeys();
    assert HasKey(EmotionStyles, Lower(name)) <==> Lower(name) in KnownEmotions by {
      if Lower(name) in KnownEmotions {
        var i :| 0 <= i < |KnownEmotions| && KnownEmotions[i] == Lower(name);
        assert EmotionStyles[i].0 == Lower(name);
      }
    }
    forall i | 0 <= i < |EmotionStyles| && EmotionStyles[i].0 == Lower(name)
      ensures Lookup(EmotionStyles, Lower(name)) == Some(EmotionStyles[i].1)
    {
      LookupMember(EmotionStyles, i);
    }
    match Lookup(EmotionStyles, Lower(name))
    case Some(s) => s
    case None => DefaultStyle
  }

  /** A known emotion, in any mix of cases, never gets the default style; any other label always does. */
  lemma StyleIsDefaultIffUnknown(name: string)
    ensures StyleFor(name) == DefaultStyle <==> Lower(name) !in KnownEmotions
  {
    if Lower(name) in KnownEmotions {
      var i :| 0 <= i < |KnownEmotions| && KnownEmotions[i] == Lower(name);
      assert EmotionStyles[i].0 == KnownEmotions[i];
    }
  }

  /** Labels that differ only in case get the same style. */
  lemma StyleIgnoresCase(a: string, b: string)
    requires SameIgnoringCase(a, b)
    ensures StyleFor(a) == StyleFor(b)
  {
  }

  /**
   * The confidence after the label: a percentage in parentheses when the
   * confidence is a number (or a boolean), and nothing otherwise. The
   * percentage rendering of a float is not modelled; `pct` stands for it.
   */
  function ConfidenceSuffix(conf: Json, pct: real -> string): (r: string)
    ensures r == "" <==> !IsNumber(conf)
    ensures IsNumber(conf) ==> r == " (" + pct(NumberValue(conf)) + ")"
  {
    if IsNumber(conf) then " (" + pct(NumberValue(conf)) + ")" else ""
  }

  /** The text of the badge: the emoji and caption, the label, then the confidence suffix. */
  function BadgeText(name: string, conf: Json, pct: real -> string): (r: string)
    ensures |r| == |BadgePrefix| + |name| + |ConfidenceSuffix(conf, pct)|
    ensures r[..|BadgePrefix|] == BadgePrefix
    ensures r[|BadgePrefix|..|BadgePrefix| + |name|] == name
    ensures r[|BadgePrefix| + |name|..] == ConfidenceSuffix(conf, pct)
  {
    BadgePrefix + name + ConfidenceSuffix(conf, pct)
  }

  /** Without a numeric confidence the badge ends with the label and carries no percentage. */
  lemma BadgeWithoutConfidence(name: string, conf: Json, pct: real -> string)
    requires !IsNumber(conf)
    ensures BadgeText(name, conf, pct) == BadgePrefix + name
  {
  }

  /** With a numeric confidence the badge ends with the percentage in parentheses. */
  lemma BadgeWithConfidence(name: string, conf: Json, pct: real -> string)
    requires IsNumber(conf)
    ensures BadgeText(name, conf, pct) == BadgePrefix + name + " (" + pct(NumberValue(conf)) + ")"
  {
  }

  /** The first `n` palette colours; a Python slice stops at the end of the list. */
  function PaletteFor(n: nat): (r: seq<string>)
    ensures |r| == if n < |Palette| then n else |Palette|
    ensures forall i :: 0 <= i < |r| ==> r[i] == Palette[i]
  {
    Palette[..if n < |Palette| then n else |Palette|]
  }

  /** A full palette slice is the whole palette. */
  lemma PaletteWhole()
    ensures PaletteFor(|Palette|) == Palette
  {
  }
}
