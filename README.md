# Research assistant: request shaping and view state machines, in Dafny

This project models the local logic of a browser dashboard that sends
research questions to a hosted language model. Two parts are modelled:

- **The query service** (`services/geminiService.ts`, module `GeminiService`).
  `searchResearchPapers` turns a model response into a `SearchResult`. The
  summary falls back to "No results found." when the text is empty. One
  `PaperSource` is pushed per grounding chunk that has a `web` field. A falsy
  title becomes "Source" and a falsy uri becomes "#". `simulateOutcome` hands
  a non-empty text body to the JSON parser. Both operations turn every failure
  into one fixed error message.
- **The two views** (`components/PaperSearch.tsx`, module `PaperSearch`;
  `components/OutcomeSimulator.tsx`, module `OutcomeSimulator`). Each view is
  a class holding its state variables. The `async` handler is split into a
  dispatch method (`HandleSearch`, `HandleSimulate`) and a `Resolve(outcome)`
  method. The dispatch method runs the input guard and the reset, and
  returns the request. `Resolve` runs the success or failure branch and the
  `finally`.
- **Simulator display projections.** These are the risk bar series, the
  confidence gauge entry and the three-band confidence colour. The "primary
  risk" label sorts the stored `riskFactors` in place: the class copies them
  into an array, `SortByValueDescending` sorts that array, and the sorted
  order is written back into the stored result.

The record shapes of `types.ts` are datatypes in module `Types`. The network
call is an input: the outcome of `generateContent`, either a response or a
thrown value. `JSON.parse` is an input too: a total function from text to a
parsed `SimulationResult` or a parse error. Scores are JavaScript numbers
that the code only compares and copies, so they are modelled as `int`.
`Array.prototype.sort` is stable, so sorting with the comparator
`(a, b) => b.value - a.value` has exactly one possible result: descending
value, with ties in received order. `SortedByValue` is that result, defined
as a stable insertion sort.

The model follows the code, including where a reader might expect more of it:

- A parse failure is not a distinct error. The `catch` at
  services/geminiService.ts:118-121 re-wraps it into the same "Failed to
  simulate outcome…" message as a missing body or a failed call.
- `confidenceScore` and risk values are not bounded to [0,100]. The prompt
  at services/geminiService.ts:70-71 asks the remote model for 0-100, and no
  code checks the parsed values.
- The primary-risk sort at components/OutcomeSimulator.tsx:138 mutates the
  stored result; it is not done on a copy.
  `ChartReorderedUnlessAlreadySorted` states what later renders of the risk
  chart see as a result.
- The search summary is never empty: the fallback text at
  services/geminiService.ts:23 replaces an empty body.

## Model

| member | source | states |
|---|---|---|
| `GeminiService.Summary` | services/geminiService.ts:23 | the summary is the response text when that text is present and non-empty; otherwise it is exactly "No results found." It is never empty |
| `GeminiService.OrElse` | services/geminiService.ts:33-34 | the logical-or fallback on an optional string: a present, non-empty value is kept, and an absent or empty one gives exactly the fallback |
| `GeminiService.SourceOf` | services/geminiService.ts:32-35 | a missing or empty `web.title` becomes "Source" and a missing or empty `web.uri` becomes "#"; present values are copied unchanged, so neither field is ever empty |
| `GeminiService.GroundingChunks` | services/geminiService.ts:27 | absent candidates, an empty candidate list, or missing grounding metadata or chunks all give no chunks; otherwise the first candidate's chunk list is used |
| `GeminiService.WebIndices` | services/geminiService.ts:29-37 | independent description of the kept chunks: the positions of the chunks with a `web` field, strictly increasing, each such position present |
| `GeminiService.WebSources` | services/geminiService.ts:29-37 | the list the `forEach`/`push` builds: never more sources than chunks, and every source has a non-empty title and uri; `WebSourcesFollowWebChunks` gives its exact contents |
| `GeminiService.WebSourcesFollowWebChunks` | services/geminiService.ts:29-37 | there is exactly one source per web-bearing chunk, in chunk order: the k-th source is built from the k-th chunk that has `web` |
| `GeminiService.NoWebChunksNoSources` | services/geminiService.ts:29-38 | when no chunk has `web`, including when there are no chunks, the source list is empty |
| `GeminiService.ExtractSources` | services/geminiService.ts:26-38 | the `forEach`/`push` loop produces exactly the specified source list, and never more sources than chunks |
| `GeminiService.SearchResearchPapers` | services/geminiService.ts:10-48 | the call fails exactly when the model call failed, and then the error is exactly "Failed to fetch research papers. Please try again." with no partial result; on success the summary has its fallback and the sources come from the first candidate's chunks |
| `GeminiService.SimulateOutcome` | services/geminiService.ts:54-122 | it succeeds exactly when the call succeeded, the text is non-empty and parsing succeeded, and then returns the parsed value unchanged; every other case, including the inner "No simulation data returned.", gives exactly "Failed to simulate outcome. Please adjust your parameters." |
| `PaperSearch.TrimEmptyIffBlank` | components/PaperSearch.tsx:14 | `query.trim()` is empty exactly when every character of the query is ECMAScript whitespace or a line terminator |
| `PaperSearch.Trim` | components/PaperSearch.tsx:14 | `query.trim()`: never longer than the query, and a non-empty result starts and ends with a non-whitespace character; `TrimEmptyIffBlank` says when it is empty |
| `PaperSearch.SubmitDisabled` | components/PaperSearch.tsx:54 | the button is disabled exactly when a search is pending or the query is the empty string; so a pending search blocks a second submission, and every query the handler would dispatch can be submitted |
| `PaperSearch.BlankQueryEnablesSubmitButIsNotDispatched` | components/PaperSearch.tsx:54 | a non-empty whitespace-only query leaves the button enabled, yet its trim is empty, so the handler does nothing |
| `PaperSearch.ErrorText` | components/PaperSearch.tsx:24 | an `Error` shows its message and any other thrown value shows "An error occurred" |
| `PaperSearch.SearchView.constructor` | components/PaperSearch.tsx:7-10 | initial state: empty query, not loading, no result, no error |
| `PaperSearch.SearchView.SetQuery` | components/PaperSearch.tsx:48 | only the query changes, and the view invariant is kept |
| `PaperSearch.SearchView.HandleSearch` | components/PaperSearch.tsx:12-18 | a blank query changes no state and dispatches nothing; otherwise the untrimmed query is dispatched, loading is set, and error and result are both cleared |
| `PaperSearch.SearchView.Resolve` | components/PaperSearch.tsx:20-27 | success stores the result and leaves the error empty; failure stores the error text and leaves the result empty; loading is false afterwards either way, and a result and an error are never held together |
| `PaperSearch.LinksOf` | components/PaperSearch.tsx:90-108 | one link per source, in order, with the source's uri as href and its title as text |
| `PaperSearch.RenderSources` | components/PaperSearch.tsx:89-111 | the "No direct sources linked." branch is taken exactly when there are no sources; otherwise there is one link per source, in order |
| `PaperSearch.SearchRendersOneLinkPerWebChunk` | components/PaperSearch.tsx:89-110 | from response to screen: the note appears exactly when no grounding chunk has `web`, and otherwise there are as many links as web-bearing chunks |
| `OutcomeSimulator.RunDisabled` | components/OutcomeSimulator.tsx:79 | the button is enabled exactly when no simulation is pending and both inputs are non-empty; a pending simulation always disables it |
| `OutcomeSimulator.SimulatorView.constructor` | components/OutcomeSimulator.tsx:18-21 | initial state: empty inputs, not simulating, no result |
| `OutcomeSimulator.SimulatorView.SetInputs` | components/OutcomeSimulator.tsx:60-72 | only the two inputs change, and the view invariant is kept |
| `OutcomeSimulator.SimulatorView.HandleSimulate` | components/OutcomeSimulator.tsx:23-26 | an empty hypothesis or parameters string changes nothing and dispatches nothing; otherwise both inputs are dispatched, the view is pending and the result is cleared |
| `OutcomeSimulator.SimulatorView.Resolve` | components/OutcomeSimulator.tsx:27-35 | success stores the returned value; failure leaves the result empty; the pending flag is false afterwards either way |
| `OutcomeSimulator.SimulatorView.ShowPrimaryRisk` | components/OutcomeSimulator.tsx:138 | the stored `riskFactors` are replaced by their stable descending sort and nothing else in the result changes; the label shown is the primary risk of the factors as received |
| `OutcomeSimulator.BarsOf` | components/OutcomeSimulator.tsx:39 | one bar per factor, in order, with the same name and value and fill `#ef4444` |
| `OutcomeSimulator.RiskData` | components/OutcomeSimulator.tsx:39 | no result gives no bars; otherwise the bars follow `riskFactors` in length, order, names and values, and each is red |
| `OutcomeSimulator.ConfidenceData` | components/OutcomeSimulator.tsx:40 | a result gives exactly one gauge entry carrying `confidenceScore`; no result gives none |
| `OutcomeSimulator.ConfidenceBand` | components/OutcomeSimulator.tsx:126 | green above 70, yellow above 40 up to 70, red at 40 and below; each colour is given exactly on its band |
| `OutcomeSimulator.ConfidenceBandMonotone` | components/OutcomeSimulator.tsx:126 | a higher score never gets a worse colour |
| `OutcomeSimulator.SortedByValue` | components/OutcomeSimulator.tsx:138 | the one order a stable sort with comparator `b.value - a.value` gives, of the same length as the input; `SortedByValueSorts`, `SortedByValuePermutes`, `SortedByValueStable` and `SortedHeadIsFirstMax` state its properties |
| `OutcomeSimulator.SortedByValueSorts` | components/OutcomeSimulator.tsx:138 | the sort's result is in non-increasing `value` order |
| `OutcomeSimulator.SortedByValuePermutes` | components/OutcomeSimulator.tsx:138 | the sort's result is a permutation of the received factors |
| `OutcomeSimulator.SortedByValueStable` | components/OutcomeSimulator.tsx:138 | the sort is stable: for every value, the factors with that value appear in the sorted result in their received order |
| `OutcomeSimulator.SortedFixed` | components/OutcomeSimulator.tsx:138 | factors that are already in non-increasing order are left as they are |
| `OutcomeSimulator.SortedByValueIdempotent` | components/OutcomeSimulator.tsx:138 | sorting again on a later render does not change the stored order any further |
| `OutcomeSimulator.ChartReorderedUnlessAlreadySorted` | components/OutcomeSimulator.tsx:138 | after the in-place sort, the risk chart differs from the chart of the received order exactly when the factors were not already in non-increasing order |
| `OutcomeSimulator.FirstMaxIndex` | components/OutcomeSimulator.tsx:138 | reference definition: a position holding a maximum value, with every earlier factor strictly smaller |
| `OutcomeSimulator.SortedHeadIsFirstMax` | components/OutcomeSimulator.tsx:138 | the first element after sorting is the first maximum-value factor in received order |
| `OutcomeSimulator.PrimaryLabel` | components/OutcomeSimulator.tsx:138 | the label (the first name, or "None" when there is none or it is empty) is never empty |
| `OutcomeSimulator.PrimaryRisk` | components/OutcomeSimulator.tsx:138 | the card text is never empty, is "None" when there are no factors, and otherwise is "None" or the name of one of the received factors; `PrimaryRiskIsFirstMaximum` says which one |
| `OutcomeSimulator.PrimaryRiskIsFirstMaximum` | components/OutcomeSimulator.tsx:138 | with no factors the card shows "None"; otherwise it shows the name of the first maximum-value factor, or "None" if that name is empty |
| `OutcomeSimulator.InsertForward` | components/OutcomeSimulator.tsx:138 | one insertion step done in place: the prefix is untouched and the suffix becomes the element inserted into the rest |
| `OutcomeSimulator.SortByValueDescending` | components/OutcomeSimulator.tsx:138 | the in-place sort leaves the array holding exactly the stable descending order of its old contents |

## Left out

- The network call `ai.models.generateContent`, the `GoogleGenAI` client and its API key. The model takes the call's outcome as an input.
- The prompt texts, the model names, the thinking budget and the response schema. They are request payloads for the remote model and have no local behaviour.
- `JSON.parse`. It is an opaque total function from text to a parsed result or a parse error. The model does not say which texts parse, because that is the parser's business, not this code's.
- SimulateOutcome: `JSON.parse(response.text) as SimulationResult` (services/geminiService.ts:113) is an unchecked TypeScript cast. In the code any JSON value is a success, including `null` or an object with missing fields, since the response schema marks no field as required. `setResult(null)` then shows the empty panel, and a missing `riskFactors` throws in `riskData` during render. The model assumes every successful parse is a complete `SimulationResult`, so `SimulatorView.Resolve`, `RiskData` and `PrimaryRisk` do not cover those values. A parse error in the model stands only for text that is not JSON, never for a schema mismatch.
- `console.error` in both services and the simulator, and the simulator's `alert`. They are output only and change no state.
- `async`/`await` interleaving and React's state scheduling. Each handler is a dispatch step followed by a resolve step. `Resolve` requires a pending request, because the continuation only runs after a dispatch. A second dispatch while one is pending is possible only through the disabled button, and `SubmitDisabled`/`RunDisabled` state that the button blocks it.
- `new URL(source.uri).hostname` on the search result card. It is a foreign URL parser and is not part of this model. It would throw on the "#" default that `SourceOf` produces for a missing uri.
- The rest of the rendering: JSX markup, styling, charts and icons, the loading and empty panels, the timeline list and its `timeline.length` phase count.
- `App.tsx` (the view switch), `components/Dashboard.tsx` and `components/Sidebar.tsx`. They are navigation and static content; `ViewState` is kept only as a datatype.
- Floating-point numbers. Scores and risk values are integers here. NaN and fractional values, and what the comparator does with them, are not modelled.
- The engine's actual sorting algorithm. An insertion sort stands in for it. Because the sort is stable, any stable algorithm gives the same result.
