/**
 * One press of "Identify Emotion!": the multipart part that is sent, and what
 * the page shows for the reply.
 */
module Page {
  import opened PyJson
  import opened Interpret
  import opened Presentation
  import opened TopThree

  /** The one part of the multipart body: form field, file name, bytes, content type. */
  datatype FilePart = FilePart(field: string, filename: string, content: seq<bv8>, contentType: string)

  /**
   * The part built from the upload: its name, bytes and content type, where an
   * empty name or type is replaced by its default.
   */
  function UploadPart(name: string, mime: string, content: seq<bv8>): (r: FilePart)
    ensures r.field == "file" && r.content == content
    ensures name != "" ==> r.filename == name
    ensures name == "" ==> r.filename == "image.jpg"
    ensures mime != "" ==> r.contentType == mime
    ensures mime == "" ==> r.contentType == "image/jpeg"
  {
    var n := [Str(name), Str("image.jpg")];
    var t := [Str(mime), Str("image/jpeg")];
    OrChainSelects(n, if name != "" then 0 else 1);
    OrChainSelects(t, if mime != "" then 0 else 1);
    FilePart("file", OrChain(n).s, content, OrChain(t).s)
  }

  /**
   * What came back from the POST: the decoded body, or a failure of the
   * `requests` library (connection error, timeout, a 4xx or 5xx status, or a body
   * that is not JSON) with its message.
   */
  datatype Reply = Decoded(data: Json) | RequestFailed(details: string)

  /** What the page shows below the badge. */
  datatype Body =
    | Charts(bars: seq<Entry>, barColors: seq<string>, pieColors: seq<string>)
      // the bar and pie charts of the top entries
    | Unplottable(probs: seq<(string, Json)>)
      // the chart code is reached with a value that is not a number
    | RawPayload(data: Json)
      // `st.json(data)`

  datatype Outcome =
    | Shown(badge: string, style: Style, body: Body)
    | ApiError(message: string)
      // `st.error(f"API call failed: {e}")`
    | Unhandled
      // an exception other than a request failure escapes the page

  predicate AllNumbers(ms: seq<(string, Json)>) {
    forall i :: 0 <= i < |ms| ==> IsNumber(ms[i].1)
  }

  /** The probability table as a series: its entries with their numeric values, in order. */
  function Entries(ms: seq<(string, Json)>): (r: seq<Entry>)
    requires AllNumbers(ms)
    ensures |r| == |ms|
    ensures forall i :: 0 <= i < |ms| ==> r[i] == (ms[i].0, NumberValue(ms[i].1))
  {
    if ms == [] then []
    else [(ms[0].0, NumberValue(ms[0].1))] + Entries(ms[1..])
  }

  /** The charts, or the raw payload when `probs` is not a non-empty dict. */
  function ChartBody(data: Json, probs: Json): (r: Body)
    ensures r.RawPayload? <==> !(probs.Obj? && probs.members != [])
    ensures r.RawPayload? ==> r.data == data
    ensures r.Unplottable? <==> probs.Obj? && probs.members != [] && !AllNumbers(probs.members)
    ensures r.Charts? ==> r.bars == TopEntries(Entries(probs.members))
    ensures r.Charts? ==> r.barColors == PaletteFor(|r.bars|) && r.pieColors == PaletteFor(|r.bars|)
  {
    if probs.Obj? && probs.members != [] then
      if AllNumbers(probs.members) then
        var top := TopEntries(Entries(probs.members));
        Charts(top, PaletteFor(|top|), PaletteFor(|top|))
      else Unplottable(probs.members)
    else RawPayload(data)
  }

  /** The page's reaction to a reply; `pct` renders a fraction as `:.1%` does. */
  function Present(reply: Reply, pct: real -> string): (r: Outcome)
    ensures reply.RequestFailed? ==> r == ApiError("API call failed: " + reply.details)
    ensures reply.Decoded? && !reply.data.Obj? ==> r.Unhandled?
    ensures reply.Decoded? && reply.data.Obj? ==>
              (r.Unhandled? <==> !ResolveLabel(reply.data.members).Str?)
  {
    match reply
    case RequestFailed(details) => ApiError("API call failed: " + details)
    case Decoded(data) =>
      if !data.Obj? then Unhandled
      else
        var lbl := ResolveLabel(data.members);
        var conf := ResolveConfidence(data.members);
        var probs := ResolveProbs(data.members);
        if !lbl.Str? then Unhandled
        else Shown(BadgeText(lbl.s, conf, pct), StyleFor(lbl.s), ChartBody(data, probs))
  }

  /** The badge and its style for a reply that reaches them. */
  lemma PresentShowsBadge(data: seq<(string, Json)>, pct: real -> string)
    requires ResolveLabel(data).Str?
    ensures var r := Present(Decoded(Obj(data)), pct);
            var lbl := ResolveLabel(data).s;
            && r.Shown?
            && r.badge == BadgePrefix + lbl + ConfidenceSuffix(ResolveConfidence(data), pct)
            && r.style == StyleFor(lbl)
  {
  }

  /**
   * The chart branch is taken exactly when the probability field is a
   * non-empty dict; otherwise the whole payload is shown raw.
   */
  lemma ChartsExactlyForNonEmptyTable(data: seq<(string, Json)>, pct: real -> string)
    requires ResolveLabel(data).Str?
    ensures var body := Present(Decoded(Obj(data)), pct).body;
            var probs := ResolveProbs(data);
            && (body.RawPayload? <==> !(probs.Obj? && probs.members != []))
            && (body.RawPayload? ==> body.data == Obj(data))
  {
  }

  /**
   * Both charts show the same entries in the same colours: the first
   * |bars| colours of the palette, so entry i has palette colour i in each.
   */
  lemma ChartColoursAgree(data: seq<(string, Json)>, pct: real -> string)
    requires ResolveLabel(data).Str?
    ensures var body := Present(Decoded(Obj(data)), pct).body;
            body.Charts? ==>
              && body.barColors == body.pieColors
              && |body.barColors| == |body.bars|
              && forall i :: 0 <= i < |body.bars| ==> body.barColors[i] == Palette[i]
  {
  }

  /** The charted entries are the largest min(3, |probs|) entries of the table. */
  lemma ChartsShowLargestThree(data: seq<(string, Json)>, pct: real -> string)
    requires ResolveLabel(data).Str?
    ensures var body := Present(Decoded(Obj(data)), pct).body;
            var probs := ResolveProbs(data);
            body.Charts? ==>
              var all := Entries(probs.members);
              && |body.bars| == Min(ShownEntries, |probs.members|)
              && NonIncreasing(body.bars)
              && (forall e :: e in body.bars ==> e in all)
              && (forall e, t :: e in multiset(all) - multiset(body.bars) && t in body.bars ==> e.1 <= t.1)
  {
    var body := Present(Decoded(Obj(data)), pct).body;
    if body.Charts? {
      TopEntriesSelectsLargest(Entries(ResolveProbs(data).members));
    }
  }
}
