# PS-Code review panel: a Dafny model

PS-Code is a single React component. It takes a code snippet and a language
and sends a prompt to the Gemini generative-content endpoint. It then parses
the JSON review that comes back and renders the score, summary, issues and
suggestions. This project models the three parts of that component that have
checkable behaviour, and proves properties about them:

- **The submission flow** (`handleReview`). This is a class `ReviewPanel` with
  the component's state fields `code`, `language`, `review`, `loading` and
  `error`. A click is modelled in two steps. `BeginSubmit` does the blank check,
  the reset and issues the request. `Complete` consumes the network outcome.
  `HandleReview` runs both steps in order. The outcome is abstract:
  - a payload string, on a success status;
  - a failure status with an optional error-envelope message;
  - anything thrown before cleaning, with an optional message.

  `JSON.parse` is a parser function given to the constructor. It returns a
  value, or the thrown error's optional message. A value is either falsy
  (`null`, `false`, `0`, `""`) or truthy; a truthy value is stored and
  rendered as a review. `Settle` is the pure meaning of the `try`/`catch`: a
  request ends with a review published, with the results area cleared by a
  falsy value, or with an error message. `MessageOr` is JavaScript's
  `message || fallback`.
- **The response cleaner** (the `let cleanedText` lines). `RemoveMarkers` is
  `replace(/m\n?/g, '')` for a literal marker `m`. It scans leftmost and
  non-overlapping, and the `\n?` is greedy. `Unfence` chooses between the
  `json`-tagged pair of passes, the bare pass, or no pass. `CleanResponse` is
  trim followed by `Unfence`. The cleaner looks like fenced-code-block
  unwrapping (section 4.5 of the CommonMark specification) but does not follow
  it. Markers are deleted wherever they stand, including inside JSON string
  values; `InnerMarkerDeleted` proves this.
- **The issue display rules**. `ToneOf` is the severity chain: "high" is red,
  "medium" is yellow, and any other string is blue. The card, icon and badge
  styling sites each have their own copy of that chain (`CardClass`,
  `IconClass`, `BadgeClass`); `SitesAgree` proves they agree. `ShowLine` is the
  "Line n" rule.

Modules: `Wrappers` holds Option and Result. `Strings` holds `trim`,
`startsWith`, substring occurrence, and subsequence ("only deletes
characters"). The other modules are `Fences`, `Reviews` and `Reviewer`.

Some facts follow from the contracts rather than being separate lemmas:

- `BeginSubmit` on blank code leaves `review` and `loading` unchanged. So if
  the blank check were reached after a successful review, the review and the
  blank-input error would both be displayed. In the component this does not
  happen: the only caller is the submit button (src/App.jsx:217), and its guard
  (src/App.jsx:218, `CanSubmit`) disables it for blank code.
- Two identical submissions that get identical outcomes end in the same state.
  This is because `HandleReview`'s postcondition fixes `review`, `error` and
  `loading` completely.

## Model

| member | source | states |
|---|---|---|
| Strings.TrimStart | src/App.jsx:91 | The result is a suffix of the input. Everything cut off is whitespace, and the result does not start with whitespace. |
| Strings.TrimEnd | src/App.jsx:91 | The result is a prefix of the input. Everything cut off is whitespace, and the result does not end with whitespace. |
| Strings.Trim | src/App.jsx:17 | `trim()` is empty exactly when the input is all whitespace. A non-empty result neither starts nor ends with whitespace. Text that already has non-whitespace ends is returned unchanged. |
| Strings.TrimCutsOnlyMargins | src/App.jsx:91 | `trim()` returns an infix of the input, and the margins cut away on both sides are whitespace only. |
| Strings.MarginsOfInfix | src/App.jsx:91 | Cutting a whitespace prefix and then a whitespace suffix leaves an infix whose right margin is whitespace too. |
| Strings.StartsWith | src/App.jsx:92-94 | `startsWith(p)` holds exactly when the text is at least as long as `p` and agrees with it at every position of `p`. |
| Fences.RemoveMarkers | src/App.jsx:93-95 | A global `/m\n?/g` replace with '' never lengthens the text, and leaves text in which the marker does not occur unchanged. |
| Fences.Unfence | src/App.jsx:92-96 | The marker passes never lengthen the text, and text that does not open with "```" (and so not with "```json") goes through neither pass. |
| Fences.CleanResponse | src/App.jsx:91-96 | The parser's text is no longer than the payload. If the trimmed payload does not start with "```", the parser gets exactly the trimmed payload. |
| Fences.PlainTextKept | src/App.jsx:91-96 | Text with no whitespace at its ends and no backtick at its head reaches the parser unchanged. |
| Fences.RemovalOnlyDeletes | src/App.jsx:93-95 | A global `/m\n?/g` replace with '' only deletes characters. The output is a subsequence of the input and no longer than it. |
| Fences.NoFenceAfterRemoval | src/App.jsx:95 | After the `/```\n?/g` pass, no "```" is left anywhere, including markers that two deletions might have brought together. |
| Fences.PlainPrefixKept | src/App.jsx:93-95 | Text with no backticks passes through a marker pass unchanged, and the pass continues on what follows it. |
| Fences.ShortTextKept | src/App.jsx:93 | Text shorter than the marker is not changed by its pass. |
| Fences.OpeningMarkerRemoved | src/App.jsx:93-95 | A marker at the start, together with the line feed after it, is deleted, and the scan resumes after them. |
| Fences.ClosingFenceCleaned | src/App.jsx:93-95 | A closing "\n```" after a backtick-free body survives the `json` pass and loses its marker, but keeps its line feed, in the bare pass. |
| Fences.TaggedOpeningRemoved | src/App.jsx:92-93 | Text that opens with "```json" and a line feed runs both passes on the rest. |
| Fences.BareOpeningRemoved | src/App.jsx:94-95 | Text that opens with "```" and a line feed (and so not with "```json") runs only the bare pass on the rest. |
| Fences.BacktickEndsNotTrimmed | src/App.jsx:91 | A payload that starts and ends with a backtick is not changed by the trim step. |
| Fences.FencedBlockNotTrimmed | src/App.jsx:91 | A fenced payload whose text ends in a backtick is cleaned as it stands. |
| Fences.CleaningOnlyDeletes | src/App.jsx:91-96 | The text handed to the parser is a subsequence of the trimmed payload, so it is never longer. |
| Fences.FencedLeavesNoMarker | src/App.jsx:92-95 | If the trimmed payload starts with "```", the parser's text contains no "```" at all. |
| Fences.TaggedBlockUnwraps | src/App.jsx:92-93 | "```json\n" + B + "\n```" cleans to B + "\n" for any body B with no backticks. |
| Fences.BareBlockUnwraps | src/App.jsx:94-95 | "```\n" + B + "\n```" cleans to B + "\n" for any body B with no backticks. |
| Fences.InnerMarkerRemoved | src/App.jsx:95 | A "```" in the middle of the body is deleted, and the text after it stays. |
| Fences.InnerMarkerDeleted | src/App.jsx:94-95 | The cleaner ignores JSON structure: a "```" inside the body, for example inside a string value, is deleted too. |
| Reviews.ToneOf | src/App.jsx:303-307 | "high" is red and "medium" is yellow, in both directions. Every other string is blue. |
| Reviews.CardClass | src/App.jsx:302-308 | The card's own chain picks the card style of `ToneOf`. |
| Reviews.IconClass | src/App.jsx:311-317 | The icon's own chain picks the icon style of `ToneOf`. |
| Reviews.BadgeClass | src/App.jsx:326-332 | The badge's own chain picks the badge style of `ToneOf`. |
| Reviews.StylesDistinguishTones | src/App.jsx:302-332 | At each site, the three tones get three different class strings. |
| Reviews.SitesAgree | src/App.jsx:302-332 | Two severities get the same card exactly when they get the same icon, exactly when they get the same badge, exactly when they have the same tone. |
| Reviews.ShowLine | src/App.jsx:321 | The line note is shown exactly for lines >= 1. An unlocated issue (line 0) shows none. |
| Reviewer.MessageOr | src/App.jsx:84 | `message \|\| fallback`: a present, non-empty message wins. A missing or empty one gives the fallback, so the result is never empty when the fallback is not. |
| Reviewer.Settle | src/App.jsx:82-104 | A review is published exactly when a payload's cleaned text parses to a truthy value, and it is that value. The results area is cleared exactly when the cleaned text parses to a falsy value. Every failure has a non-empty message. A failure status shows the envelope's message or "Failed to get review from Gemini API", never the generic fallback. A thrown error or a parse error shows its own message, or the generic fallback when it has none. |
| Reviewer.NullPayloadClears | src/App.jsx:98-99 | A payload whose text is `null` settles on neither a review nor an error. |
| Reviewer.SettleRejectingFalsy | src/App.jsx:98-103 | The corrected settling never clears: a falsy value becomes a failure with the generic fallback message, and every other outcome settles as before. |
| Reviewer.FencedPayloadSettlesAsBare | src/App.jsx:91-99 | A trimmed, backtick-free body wrapped in a fenced block (tagged or bare) settles exactly as the bare body, provided the parser ignores a trailing line feed. |
| Reviewer.SameTextSameSettling | src/App.jsx:91-104 | Two payloads whose cleaned texts parse alike settle alike. |
| Reviewer.ReviewPanel.constructor | src/App.jsx:5-12 | Initial state: empty code, language "javascript", no review, not loading, empty error. |
| Reviewer.ReviewPanel.SetCode | src/App.jsx:203 | The editor's text becomes `code`. |
| Reviewer.ReviewPanel.SetLanguage | src/App.jsx:171 | The selected value becomes `language`. |
| Reviewer.ReviewPanel.CanSubmit | src/App.jsx:218 | The button is enabled exactly when not loading and the code has a non-whitespace character. |
| Reviewer.ReviewPanel.BeginSubmit | src/App.jsx:17-26 | Blank code: the error becomes exactly "Please enter some code to review", `loading` and `review` are unchanged, and no request is issued. Otherwise: `loading`, no review, empty error, and one request carrying the code and language. |
| Reviewer.ReviewPanel.Complete | src/App.jsx:82-105 | `loading` ends. The `Settle` result is applied: a published review is set, a falsy value clears the review, and in both cases the error is left as it was; on failure the error is set and the review left as it was. The cleaned text is computed by reassigning a local step by step. |
| Reviewer.ReviewPanel.HandleReview | src/App.jsx:16-106 | Blank code: as in `BeginSubmit`. Otherwise one request is issued and the panel ends not loading, as `Settle` decides: review set and error ""; no review and a non-empty error; or, for a falsy parse result, no review and error "". It ends on exactly one of a review or an error unless the parse result is falsy. |

## Left out

- The `fetch` call, URL, headers, request body, API key and generation settings (src/App.jsx:15, 63-80). This is network I/O and configuration; the network's answer is the `Outcome` parameter.
- Prompt wording (src/App.jsx:29-61). It has no logic; the model keeps only that the request carries the code and language verbatim (`Request`).
- `JSON.parse` and the response envelope path `data.candidates[0].content.parts[0].text` (src/App.jsx:87-88, 98). Parsing is a function parameter. A missing envelope path is a `Thrown` outcome.
- A truthy parse result that is not an object (for example `5` or `"ok"`) is stored and rendered with undefined fields. The model treats every truthy value as a `Review`, so how such a value renders is not modelled.
- A falsy parse result is stored as it is (`null`, `false`, `0` or `""`). None of them renders a review card (src/App.jsx:268), so the model stores `None` for all of them. What the page shows instead is not modelled: the idle placeholder (src/App.jsx:245-254), and for `0` also the text "0" that `{review && (…)}` renders.
- Strings.Trim: whitespace is space, tab, line feed and carriage return, not ECMAScript's full set of white space and line terminators.
- Reviews.ShowLine: `line` is an integer. JavaScript's comparison of a non-numeric or fractional `line` with 0 is not modelled.
- The `score` is a real number that is only displayed. JSON number precision is not modelled.
- Clipboard copy and the timer that resets `copied` (src/App.jsx:108-112). These are browser APIs.
- `console.error` (src/App.jsx:102). This is logging.
- All layout, icons and classes other than the three severity-dependent choices (src/App.jsx:114-371). These are presentation.
- Overlapping submissions. The model runs `Complete` right after `BeginSubmit`; interleaving of two in-flight requests is not modelled. The button guard `CanSubmit` is what prevents it in the UI.

## Findings

| source | as written | input that shows it | evidently intended | confidence | as-written member | corrected member |
|---|---|---|---|---|---|---|
| src/App.jsx:98-99 | The parse result is stored without checking it, so a falsy JSON value ends the request with no review and no error: the page falls back to the idle placeholder, which invites a new submission, with no explanation. | A service payload whose text is `null` (`Reviewer.NullPayloadClears`) | A falsy result is refused like a parse error with no message, so the request ends on exactly one of a review or an error | medium, not executed | Reviewer.NullPayloadClears | Reviewer.SettleRejectingFalsy |

The panel (`ReviewPanel`) models the code as written and uses `Settle`. Its
`HandleReview` contract states the gap: the panel ends on exactly one of a
review or an error unless `Settle` clears the results area.
`SettleRejectingFalsy` gives the corrected settling and proves that it never
clears.
