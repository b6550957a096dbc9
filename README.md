# Face It, the prediction page, modelled in Dafny

The "Face It" page is a Streamlit script. A user uploads a face photo. The page
posts it to an emotion-classification service and shows the reply: a badge
with the predicted emotion (and confidence), coloured by emotion, and then
either a bar chart and a donut chart of the three most likely emotions or the
raw JSON reply. This project models the deterministic core of that script as
pure functions and proves properties of it:

- `Endpoint`: how the prediction URL is resolved from the environment, the
  secrets store or the local default, and normalised to end in `/predict`.
- `PyJson`: the decoded reply as a Python value, with Python's truth values,
  `dict.get` and `or` chains.
- `Interpret`: the fallback chains for `label`/`emotion`, `confidence` and
  `probabilities`/`scores`.
- `Presentation`: the badge text and its confidence suffix, the
  case-insensitive emotion style table with its default, and the chart palette.
- `TopThree`: the sort-then-take-three selection of the charted entries.
- `Page`: the multipart file part, and what the page shows for each reply
  (request error, badge plus charts, badge plus raw payload, or an exception
  the page does not catch).
- `Scenarios`: five example replies and one failed request, worked through the model.

Two external pieces enter the model as parameters. The `:.1%` rendering of a
number is the function parameter `pct: real -> string`. The network exchange
is the `Reply` value handed to `Page.Present`: the decoded JSON body, or the
message of a failed request.

Points where the code behaves differently from what a reader might expect:

- The badge is shown even when the raw payload replaces the charts.
  app.py:97 draws the badge before the test at line 100. `Page.Present` shows
  the badge on both paths.
- pandas does not promise an order among equal values when it sorts. The
  model fixes one order. `TopThree.TopValuesIgnoreTies` shows that the charted
  values do not depend on that order. `TopThree.StrictlySortedIsUnique` shows
  that with distinct values there is only one sorted order.
- Any number or boolean confidence is formatted, whatever its range.

## Model

| member | source | states |
|---|---|---|
| `PyJson.OrChain` | app.py:29 | a Python `a or b or …` chain yields the first truthy operand before the last one, else the last operand |
| `PyJson.OrChainSelects` | app.py:58-60 | the chain's value is operand k whenever every operand before k is falsy and k is truthy or last |
| `PyJson.OrChainTruthy` | app.py:60 | the chain's value is truthy exactly when some operand is truthy |
| `PyJson.Lookup` | app.py:58-60 | `dict` lookup finds a value exactly when the key is present, and that value is stored under the key |
| `PyJson.LookupMember` | app.py:58-60 | in a decoded dict with distinct keys, the lookup of a member's key yields that member's value |
| `PyJson.GetOr` | app.py:58 | `data.get(key, default)` is the default exactly when the key is absent, and otherwise the stored value |
| `PyJson.Get` | app.py:59 | `data.get(key)` reads None for an absent key, and otherwise the stored value |
| `PyJson.Truthy` | app.py:58-60 | a value is false exactly when it is None, False, a zero number, `""`, `[]` or `{}`; every other value is true |
| `PyJson.IsNumber` | app.py:73 | `isinstance(v, (int, float))` holds for numbers and booleans, and fails for None, strings, lists and dicts |
| `PyJson.NumberValue` | app.py:73 | a number keeps its value; a boolean counts as 1 or 0, since `bool` is an `int` |
| `Endpoint.EndsWithSlash` | app.py:30 | a string ends with `/` exactly when its last character is `/`, so the empty string does not |
| `Endpoint.FromOptional` | app.py:29 | a missing or empty configuration value is falsy, and a non-empty one is truthy |
| `Endpoint.BaseUri` | app.py:29 | the base URI is the environment value if non-empty, else the secret if non-empty, else `http://localhost:8000` |
| `Endpoint.BaseUriNonEmpty` | app.py:29 | the resolved base URI is never empty |
| `Endpoint.WithTrailingSlash` | app.py:30-31 | the normalised base ends with `/`; a `/` is added only when the base does not already end with one |
| `Endpoint.WithTrailingSlashIdempotent` | app.py:30-31 | normalising twice gives the same base as normalising once |
| `Endpoint.PredictEndpoint` | app.py:30-32 | the endpoint extends the base and ends with `/predict`: base + `predict` if the base ends with `/`, else base + `/predict` |
| `Endpoint.PredictEndpointNoNewDoubleSlash` | app.py:30-32 | the endpoint contains `//` exactly when the base does, so normalisation never introduces one |
| `Endpoint.ResolveEndpoint` | app.py:29-32 | the endpoint always ends with `/predict`, and is `http://localhost:8000/predict` when neither source is set |
| `Interpret.ResolveLabel` | app.py:58 | label is `label` if truthy; else the value of `emotion` if that key is present (whatever the value); else `"unknown"` |
| `Interpret.LabelFallsBackToEmotion` | app.py:58 | with a falsy or missing `label`, the label is the `emotion` member's value, even an empty or null one |
| `Interpret.ResolveConfidence` | app.py:59 | confidence is None when the key is absent, and otherwise the stored value |
| `Interpret.ResolveProbs` | app.py:60 | probs is `probabilities` if truthy, else `scores` if truthy, else an empty dict |
| `Interpret.EmptyProbabilitiesDoNotHideScores` | app.py:60 | an empty `probabilities` dict does not hide a non-empty `scores` dict |
| `Interpret.ProbsTruthyIff` | app.py:60 | probs is truthy exactly when `probabilities` or `scores` is |
| `Presentation.Lower` | app.py:74 | lower-casing keeps the length and lowers each letter A to Z |
| `Presentation.EmotionStylesKeys` | app.py:63-71 | the style table holds the seven known emotions, each once |
| `Presentation.StyleFor` | app.py:63-74 | the style is the table entry for the lower-cased label, or white on `#FFFFFF22` when that name is not in the table |
| `Presentation.StyleIsDefaultIffUnknown` | app.py:63-74 | a label gets the default style exactly when its lower-cased form is not one of the seven known emotions |
| `Presentation.StyleIgnoresCase` | app.py:74 | labels that differ only in letter case get the same style |
| `Presentation.ConfidenceSuffix` | app.py:73 | the suffix is empty exactly when confidence is neither a number nor a boolean; otherwise it is ` (` + percentage + `)` |
| `Presentation.BadgeText` | app.py:93 | the badge reads the prefix, then the label, then the confidence suffix, each recoverable by position |
| `Presentation.BadgeWithoutConfidence` | app.py:73-93 | without a numeric confidence the badge is the prefix and the label, with no percentage |
| `Presentation.BadgeWithConfidence` | app.py:73-93 | with a numeric confidence c the badge ends in ` (` + pct(c) + `)` |
| `Presentation.PaletteFor` | app.py:112-160 | `PALETTE[:n]` has min(n, 3) colours, the palette's first ones in order |
| `Presentation.PaletteWhole` | app.py:112-125 | slicing three colours gives the whole palette |
| `TopThree.Insert` | app.py:107 | inserting into a sorted table keeps it sorted and adds exactly the one entry |
| `TopThree.SortDescending` | app.py:107 | `sort_values(ascending=False)` gives a non-increasing permutation of the table |
| `TopThree.SortDescendingOfSorted` | app.py:107 | the model's sort, which keeps tied entries in table order, leaves a table already in descending order unchanged |
| `TopThree.SortedArrangementsAgree` | app.py:107 | two sorted permutations of one table have equal values at every position |
| `TopThree.TopValuesIgnoreTies` | app.py:107 | the charted values equal the first values of any sorted arrangement, whatever the tie order |
| `TopThree.TopRestSplit` | app.py:107 | the kept entries and the left-out ones split the table exactly; the kept ones are sorted and number min(n, size) |
| `TopThree.TopDominatesRest` | app.py:107 | no left-out entry has a larger value than any kept entry |
| `TopThree.TopEntries` | app.py:107 | `.head(3)` yields min(3, size) entries of the table, in non-increasing order of value |
| `TopThree.TopEntriesOfShortSorted` | app.py:107 | under the model's tie order, a sorted table of at most three entries is charted as it is |
| `TopThree.StrictlySortedIsUnique` | app.py:107 | a table whose values all differ has exactly one sorted arrangement, so every sort, whatever it does with ties, gives the same entries |
| `TopThree.TopEntriesSelectsLargest` | app.py:107 | the charted entries are min(3, size) entries of the table, and every entry left out is worth no more than every entry kept |
| `Page.UploadPart` | app.py:46-51 | the part is field `file` with the uploaded bytes; an empty name becomes `image.jpg` and an empty type `image/jpeg` |
| `Page.Entries` | app.py:107 | `pd.Series(probs)` lists every key with its numeric value, in order |
| `Page.ChartBody` | app.py:100-171 | the raw payload is shown exactly when probs is not a non-empty dict; the chart branch with a non-numeric value is `Unplottable`; otherwise the charts show the top entries with palette prefixes |
| `Page.Present` | app.py:52-174 | a failed request shows `API call failed: …`; a non-dict reply or a non-string label escapes uncaught |
| `Page.PresentShowsBadge` | app.py:73-97 | a string label always yields the badge text and the style looked up from it |
| `Page.ChartsExactlyForNonEmptyTable` | app.py:100-171 | the chart branch is taken exactly when probs is a non-empty dict; otherwise the whole payload is shown raw |
| `Page.ChartColoursAgree` | app.py:112-160 | bar and pie colours are the same list, one colour per charted entry, so entry i has palette colour i in both |
| `Page.ChartsShowLargestThree` | app.py:100-107 | the bars are min(3, size) entries of the table, non-increasing, and dominate every entry left out |
| `Scenarios.HappyWithProbabilities` | app.py:55-125 | the happy reply gives badge `happy (pct(0.92))`, happy's style, and bars happy, sad, angry in palette order |
| `Scenarios.AngryFromScores` | app.py:55-125 | the reply with `emotion: "Angry"` and `scores` gives label `Angry`, no suffix, and angry's style |
| `Scenarios.EmptyReply` | app.py:58-171 | `{}` gives label `unknown`, no suffix, the default style, and the raw payload `{}` |
| `Scenarios.UnreachableService` | app.py:173-174 | a failed request shows only the error message, never a badge |
| `Scenarios.ArrayReplyIsUnhandled` | app.py:58 | a top-level JSON array has no `.get`, so the page fails with an uncaught exception |
| `Scenarios.NullEmotionIsUnhandled` | app.py:58-74 | `{"emotion": null}` gives a None label, whose `.lower()` fails uncaught |

## Left out

- Page layout and widgets: titles, images, the file picker, the button, the spinner, columns, and the HTML around the badge text. These are UI output.
- The HTTP exchange itself: `requests.post` with its 30-second timeout, `raise_for_status` and `r.json()`. The model receives the outcome as a `Reply`. A body that is not JSON raises the library's `JSONDecodeError`, a `RequestException` from requests 2.27 on, so it is one more `RequestFailed`. Older releases of requests raise a plain `ValueError` there, which escapes the page; that case is not modelled. A final 1xx or 3xx response passes `raise_for_status` and reaches `r.json()` like a 2xx one.
- Figure construction with matplotlib and seaborn: axes, spines, annotations and the donut centre. The model keeps only what is charted and in which colours.
- `Presentation.ConfidenceSuffix`: the `:.1%` rendering of a float is the parameter `pct`, not a definition. The `%.1f%%` wedge labels are left out with the figures.
- `Presentation.Lower`: lowers only A to Z. Python's `str.lower` also lowers other letters. No other character's lower-case form spells any of the seven table keys, so the style chosen is the same.
- `theme.apply_theme` and PIL: `theme` is not part of this model.
- Numbers: `Num` holds a mathematical real for both Python `int` and `float`. NaN, infinities, float rounding, and an `int` too large to format as a percentage are not modelled.
- Duplicate keys in the JSON text: the decoder keeps the last value for a key. The model takes each object as that decoded dict. `Lookup` returns the first match, which is the only match when keys are distinct (`PyJson.LookupMember`).
- Non-numeric probability values: the chart code receives them, and the model says only that it does, as the body `Unplottable`. What pandas and matplotlib then do is not modelled.
- `Page.ChartBody`: returns `Charts` for every all-numeric table, including values matplotlib refuses as wedge sizes, such as negative ones. There `ax2.pie` raises an uncaught `ValueError` after the badge and the bar chart are shown. The model does not capture that failure.
- `Endpoint.BaseUri`: the secrets store is taken to exist and to hold a string or nothing under `cloud_api_uri`. A non-string TOML value would make the `endswith` call fail at module level. A missing secrets file, which Streamlit may report as an error rather than as an absent key, is not modelled either.
- `TopThree.SortDescendingOfSorted`, `TopThree.TopEntriesOfShortSorted`: these hold for the model's sort, which keeps tied entries in table order. pandas does not promise that order, so for a table with ties the page may chart the tied entries in another order. With distinct values the order is unique (`TopThree.StrictlySortedIsUnique`). The charted values never depend on it (`TopThree.TopValuesIgnoreTies`).
- The page's state across reruns (no image, image chosen, result shown): Streamlit's rerun model is not part of this model.
