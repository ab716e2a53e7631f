# Page-navigation overlay: input reconciler

This project models the page-navigation overlay of a document viewer's UI. The overlay is a small text field where the user types a page label to jump to that page. The field also follows the viewer's current page when that page changes elsewhere.

The model has two parts:

- The component's local state: the text in the field, and a one-way latch that records that custom page labels are in use.
- The four events that change that state or act on it:
  - a props update from the viewer (`componentDidUpdate`);
  - a keystroke (`onInput`);
  - a submit (`onSubmit`), which validates the text against the page labels and either asks the viewer to go to a page or asks for the field to be blurred;
  - a blur (`onBlur`), which puts the current page's label back.

The logic-bearing parts of `render` are modelled as well: nothing is drawn when the overlay is disabled, the suffix text, the field width and the shifted layout flag.

Files:

- `js_builtins.dfy` (module `JsBuiltins`): the JavaScript built-ins the component uses. These are `indexOf` on a string array and `toString` on an integer. A decimal parser is included as the inverse of `toString`.
- `page_nav_overlay.dfy` (module `PageNav`): props, field values, state and effects as datatypes, with one transition function per event. It also holds the class `PageNavOverlay`. Its fields `input` and `isCustomPageLabels` are updated in place by one method per event, and each method is proved against its transition function. The render derivations and the lemmas about single events are here too.
- `overlay_traces.dfy` (module `OverlayTraces`): sequences of events applied in order. It holds lemmas over whole event runs, and the worked scenarios.

Modelling choices:

- Props are a plain value. The component compares the page-label array by reference. That identity is modelled by the number `labelsId`. Two arrays with equal contents but different `labelsId` count as a change, as they do in the component.
- `pageLabels[currentPage - 1]` outside the array is JavaScript's `undefined`, which the component stores in its state. It is modelled as the field value `Undefined`, not excluded by a precondition. A submit of `Undefined` is rejected: it is neither `''` nor an element of a string array.
- React applies state updates asynchronously and in batches. Here each update takes effect at once, in program order.

What the code does at three edges:

- With an empty label array, a synced field becomes `undefined`, not the page number. The code always reads `pageLabels[currentPage - 1]` (`PageNav.LabelAt`).
- Replacing an empty label array never sets the latch; only replacing a non-empty one does. `OverlayTraces.CustomLabelsScenario` shows both cases.
- The field starts as `''`, and `componentDidUpdate` does not run on mount. The field stays `''` until the current page or the label array changes, or the user types in the field or leaves it.

## Model

| member | source | states |
|---|---|---|
| `JsBuiltins.IndexOf` | src/components/PageNavOverlay/PageNavOverlay.js:59 | `indexOf` gives -1 exactly when the text is absent. Otherwise it gives a position that holds the text, with no earlier position holding it. |
| `JsBuiltins.ParseIntToString` | src/components/PageNavOverlay/PageNavOverlay.js:79 | The rendering of an integer is a well-formed signed decimal string that parses back to the same integer. |
| `JsBuiltins.IntToStringInjective` | src/components/PageNavOverlay/PageNavOverlay.js:86-88 | Two integers render the same exactly when they are equal, so the numbers shown in the suffix are unambiguous. |
| `JsBuiltins.NatToStringLength` | src/components/PageNavOverlay/PageNavOverlay.js:79 | The length of `n.toString()` is the number of decimal digits of `n`: `n < 10^len`, and `10^(len-1) <= n` unless `n` has one digit. |
| `PageNav.LabelAt` | src/components/PageNavOverlay/PageNavOverlay.js:40 | `pageLabels[currentPage - 1]` is the label of the 1-based page when the page is in range, and `undefined` otherwise. |
| `PageNav.Submit` | src/components/PageNavOverlay/PageNavOverlay.js:55-63 | Submit navigates exactly when the text is `''` or one of the labels, and otherwise only blurs. A label navigates to its first position plus one, in `1..|labels|`. `''` that is not a label navigates to page 0. |
| `PageNav.SubmitTarget` | src/components/PageNavOverlay/PageNavOverlay.js:59-60 | A navigation target is 0 exactly for an empty text that is not a label. Every other target is a page whose label equals the submitted text. |
| `PageNav.InputWidthCountsDigits` | src/components/PageNavOverlay/PageNavOverlay.js:79 | For a non-negative page count the width is a multiple of 10 and at least 10. Width/10 is the number of decimal digits of the count. |
| `PageNav.SuffixShape` | src/components/PageNavOverlay/PageNavOverlay.js:86-89 | The second character of the suffix is `(` with the latch set and `/` without it. The latched form ends in `)`. The unlatched form is `" / "` followed by the total. |
| `PageNav.SuffixDeterminesTotal` | src/components/PageNavOverlay/PageNavOverlay.js:88 | Without custom labels, two suffixes are equal exactly when their totals are equal. |
| `PageNav.BlurIdempotent` | src/components/PageNavOverlay/PageNavOverlay.js:66-70 | A second blur changes nothing after the first. |
| `PageNav.DidUpdateKeepsLatch` | src/components/PageNavOverlay/PageNavOverlay.js:34-37 | A props update never clears the custom-label latch. |
| `PageNav.ChangingUpdateSynchronises` | src/components/PageNavOverlay/PageNavOverlay.js:39-41 | An update that changes the page or the label array leaves the new page's label (or `undefined`) in the field, so a blur that follows changes nothing. |
| `PageNav.PageNavOverlay.constructor` | src/components/PageNavOverlay/PageNavOverlay.js:22-29 | A new overlay has the empty text and the latch unset. |
| `PageNav.PageNavOverlay.ComponentDidUpdate` | src/components/PageNavOverlay/PageNavOverlay.js:31-42 | The latch becomes its old value or'ed with "label array replaced and previous array non-empty". The text becomes `pageLabels[currentPage-1]` exactly when the page or the label array changed. Otherwise the text, including an unsaved edit, is kept. |
| `PageNav.PageNavOverlay.OnInput` | src/components/PageNavOverlay/PageNavOverlay.js:48-50 | The text becomes the typed text verbatim, with no validation. The latch is unchanged. |
| `PageNav.PageNavOverlay.OnSubmit` | src/components/PageNavOverlay/PageNavOverlay.js:52-64 | The method changes no state. It returns a navigation exactly for valid text: the target is `indexOf + 1`, whose label is the text, or 0 for an empty text that is not a label. For invalid text it returns only a blur request. |
| `PageNav.PageNavOverlay.OnBlur` | src/components/PageNavOverlay/PageNavOverlay.js:66-70 | The text becomes the current page's label and the latch is unchanged. |
| `PageNav.PageNavOverlay.Render` | src/components/PageNavOverlay/PageNavOverlay.js:72-93 | A disabled overlay renders nothing. Otherwise it shows the text, shifts exactly when the left panel is open and not disabled, has width `digits(totalPages) * 10`, and has the suffix that matches the latch. |
| `OverlayTraces.LatchNeverResets` | src/components/PageNavOverlay/PageNavOverlay.js:34-37 | Once the latch is set, no sequence of events clears it. |
| `OverlayTraces.LatchSetExactlyByReplacement` | src/components/PageNavOverlay/PageNavOverlay.js:34-37 | Starting unset, the latch ends set exactly when some update in the run replaced a non-empty label array. |
| `OverlayTraces.BlurResynchronises` | src/components/PageNavOverlay/PageNavOverlay.js:66-70 | After any sequence of events, a blur leaves the current page's label in the field and does not touch the latch. |
| `OverlayTraces.EditSurvives` | src/components/PageNavOverlay/PageNavOverlay.js:39-41 | Submit events, and updates that change neither the page nor the label array, never alter the text. The submit handler itself leaves the text. The blur that a rejected submit requests is a separate blur event, and it does overwrite the edit. |
| `OverlayTraces.NumericLabelsScenario` | src/components/PageNavOverlay/PageNavOverlay.js:39-60 | With labels "1","2","3", moving to page 2 shows "2". Typing "3" and submitting navigates to page 3. |
| `OverlayTraces.RejectedInputScenario` | src/components/PageNavOverlay/PageNavOverlay.js:56-69 | "xyz" is rejected with a blur request only. The blur that follows restores the current page's label. |
| `OverlayTraces.CustomLabelsScenario` | src/components/PageNavOverlay/PageNavOverlay.js:34-37 | Replacing an empty array does not set the latch, and replacing a non-empty one does. The suffix goes from " / 3" to " (2/3)". |

## Left out

- React and Redux plumbing: `connect`, `mapStateToProps`, `propTypes` and the selectors (lines 1-20, 96-106). Props are a plain value passed to each method.
- DOM focus handling: the text-input ref, `onClick` focusing the field (lines 44-46), the `blur()` call and `preventDefault()`. A submit returns `BlurInput` instead of calling `blur()`. The click-to-focus intent changes no state and is not modelled.
- `core.setCurrentPage`: a call into the document engine, returned as the `Navigate(page)` effect instead.
- `getClassName` and the stylesheet: only the boolean "shifted" condition is modelled. `isOpen` is never read directly. It reaches `getClassName(…, this.props)` at line 80, which is left out with the stylesheet, so whatever effect it has on the overlay's class is not modelled.
- JSX markup, and the asynchrony and batching of `setState`: updates are applied immediately and in order.
- Page counts and page numbers that are not integers: `Number.prototype.toString` is modelled for integers only.
- JsBuiltins.NatToStringLength: the model renders every integer in plain decimal. JavaScript switches to exponential notation (`"1e+21"`) from 10^21 and cannot hold integers above 2^53 exactly, so the digit-count statement holds of JavaScript only below those bounds.
- JsBuiltins.ParseIntToString: the round trip is through plain decimal. JavaScript uses exponential notation from 10^21 and cannot hold integers above 2^53 exactly, so it describes JavaScript's `toString` only below those bounds.
- PageNav.InputWidthCountsDigits: the width is ten per decimal digit only while the page count is below 10^21. Above that JavaScript writes the count in exponential notation, and above 2^53 it cannot hold it exactly; the model still counts decimal digits.
- PageNav.PageNavOverlay.Render: the width clause uses the model's plain-decimal `toString`. It differs from JavaScript for page counts of 10^21 or more, which JavaScript writes in exponential notation, and for integers above 2^53, which a JavaScript number cannot hold exactly.
