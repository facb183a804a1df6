# UXRay audit session — a Dafny model

UXRay is a landing page with a form. The user enters a website URL. The page
opens a WebSocket to an analysis backend, sends the URL once, and shows the
audit report or the error that comes back. The backend runs a three-node
workflow over the page: browser, vision_auditor, data_structurer.

This project models three parts of that system:

- The session handler of `frontend/src/App.tsx` (module `Session`). It is a
  class `AuditSession` with the state cells `loading`, `report` and `error`,
  plus the `wsRef` ref as `current`. There is one method per event:
  `Analyze`, `Open`, `Message`, `Error` and `Unmount`. Each connection the
  handler creates is an id. The environment fires callbacks by calling the
  methods with that id, in any order. Calls to `close()` and `send` are
  recorded in order, as the ghost log `effects`.
- The request text `JSON.stringify({ url })` (module `JsonRequest`). String
  escaping is modelled exactly. A reference decoder reads the text back,
  and a lemma proves the round trip.
- The URL form of `frontend/src/components/UrlInput.tsx` (module
  `UrlInput`). This covers the `handleSubmit` gate and the disabling of the
  form while loading. Module `Page` models the wiring
  `<UrlInput onSubmit={handleAnalyze} isLoading={loading} />`.
- The workflow graph of `backend/workflows/audit_graph.py` (module
  `AuditGraph`). The graph is built by the same calls, in the same order,
  as in the source. It includes the `should_continue` router. Lemmas show
  that exactly two runs are possible.

Four behaviours of the code matter for the model:

- The callbacks never compare their own WebSocket with `wsRef.current`. A
  message on a replaced connection still changes the state; the method
  `StaleReplyWins` shows this. "A stale connection cannot affect the state"
  holds only under an assumption about the environment: the transport
  delivers nothing after `close()`. This is the predicate
  `AuditSession.Delivers`. The lemma `OnlyCurrentDelivers` proves that,
  under this assumption, only the connection `wsRef` holds can fire.
- `error` and `report` are not exclusive. A server error and a parse failure
  both leave the connection open. A later report on that connection is
  stored next to the error; `ErrorThenReport` shows this.
- When the WebSocket constructor throws, the handler sets a third error
  text, "Failed to initiate connection". `wsRef` then keeps the connection
  that was just closed.
- The state is three independent cells: `loading`, `report` and `error`.

## Model

| member | source | states |
|---|---|---|
| `JsonRequest.HexDigit` | frontend/src/App.tsx:39 | the digit JSON.stringify writes in a `\u00XX` escape reads back as its value |
| `JsonRequest.EscapeChar` | frontend/src/App.tsx:39 | one character's escape is 1 to 6 characters long, holds no control character, never starts with a quote, and is the character itself exactly when it is one character long |
| `JsonRequest.Escape` | frontend/src/App.tsx:39 | the escaped url is at least as long as the url and holds no raw control character |
| `JsonRequest.Encode` | frontend/src/App.tsx:39 | the request text starts with `{"url":"`, ends with `"}` and is at least as long as both plus the url |
| `JsonRequest.UnescapeEscapeChar` | frontend/src/App.tsx:39 | reading back one escaped character gives that character and leaves the rest of the text unread |
| `JsonRequest.UnescapeEscape` | frontend/src/App.tsx:39 | unescaping the escape of any string gives that string back |
| `JsonRequest.DecodeEncode` | app/api/routes.py:24-35 | decoding the request text the page sends gives back exactly the url it was built from |
| `Session.Interpret` | frontend/src/App.tsx:42-61 | an unparseable payload goes to the catch branch; a truthy `error` wins over everything else and is passed on verbatim; otherwise a truthy summary with a present `issues` array (an empty one included) is a completed report holding that summary and those issues, in order; every other payload is ignored |
| `Session.AuditSession.constructor` | frontend/src/App.tsx:19-22 | a mounted page is not loading, has no report, no error and no connection |
| `Session.AuditSession.Analyze` | frontend/src/App.tsx:24-35 | the report is cleared, and a held connection is closed before a new one is created on the fixed endpoint. If the constructor succeeds: `loading` is true, `error` is null, `wsRef` holds exactly the new connection, and that connection captured the url. If it throws: `loading` is false and `error` is the initiate-failure text. At most one connection stays live |
| `Session.AuditSession.Open` | frontend/src/App.tsx:37-40 | opening a connection sends exactly one message on it: the JSON text of the url its `handleAnalyze` call captured. Nothing else changes |
| `Session.AuditSession.Message` | frontend/src/App.tsx:42-62 | unparseable: parse-failure error, not loading. Truthy error: that error, not loading, connection left open. Report shape: the report exactly as received, not loading, connection closed. Anything else: no change |
| `Session.AuditSession.Error` | frontend/src/App.tsx:64-68 | a transport error sets the connection-error text and clears `loading` |
| `Session.AuditSession.Unmount` | frontend/src/App.tsx:77-83 | the connection `wsRef` holds is closed, and afterwards every connection created is closed |
| `Session.AuditSession.OnlyCurrentDelivers` | frontend/src/App.tsx:29-35 | if the transport delivers nothing after `close()`, only the connection `wsRef` holds can still fire |
| `Session.ErrorThenReport` | frontend/src/App.tsx:46-56 | after an error message and then a report on the same connection, both `error` and `report` are set |
| `Session.StaleReplyWins` | frontend/src/App.tsx:42-56 | a report on a connection replaced by a second `handleAnalyze` still sets the report and clears `loading` |
| `UrlInput.Gate` | frontend/src/components/UrlInput.tsx:15-28 | the three outcomes are exclusive and exhaustive: empty input, a non-empty input the URL constructor rejects, or acceptance of the unchanged input |
| `UrlInput.ErrorText` | frontend/src/components/UrlInput.tsx:17-27 | the error shown is empty exactly when the input was accepted |
| `UrlInput.UrlForm.constructor` | frontend/src/components/UrlInput.tsx:11-12 | the form starts with an empty input and no error |
| `UrlInput.UrlForm.Change` | frontend/src/components/UrlInput.tsx:54-58 | editing changes the input, except while loading, when the input is disabled |
| `UrlInput.UrlForm.HandleSubmit` | frontend/src/components/UrlInput.tsx:15-28 | empty input: "Please enter a URL", no call. Rejected input: the valid-URL hint, no call. Accepted input: error cleared, `onSubmit` called once with the input unchanged. The call happens if and only if the input is non-empty and valid |
| `UrlInput.UrlForm.Submit` | frontend/src/components/UrlInput.tsx:32-65 | while loading, the disabled form passes nothing to `onSubmit` and the error is unchanged. A non-empty value the browser's check of the `type="url"` input rejects is stopped before `handleSubmit`, with the error unchanged. Otherwise it behaves as `handleSubmit` |
| `UrlInput.BrowserCheckPreemptsInvalidBranch` | frontend/src/components/UrlInput.tsx:21-27 | where the browser's check rejects everything `new URL` rejects, a submission that reaches `handleSubmit` never shows the invalid-URL message |
| `Page.SubmitForm` | frontend/src/App.tsx:226 | the form's new error is `handleSubmit`'s, unless loading or the browser's check stopped the submission. A new session starts exactly when the page is not loading and the input is non-empty and passes both checks, with the input as its url: the held connection is closed, then a new one is created and held; a throwing constructor instead leaves `wsRef` as it was and shows the initiate-failure text. Otherwise the session state, its connections and its effects are untouched |
| `AuditGraph.ShouldContinue` | backend/workflows/audit_graph.py:22-27 | a missing `raw_analysis` reads as empty; the router goes to data_structurer exactly when `raw_analysis` is present, non-empty and does not start with the case-sensitive prefix "Error"; otherwise it goes to END |
| `AuditGraph.AddNode` | backend/workflows/audit_graph.py:14-16 | registering a node adds it to the graph and changes no transition and not the entry point |
| `AuditGraph.SetEntryPoint` | backend/workflows/audit_graph.py:19 | runs start at the given node afterwards; no transition and no node changes |
| `AuditGraph.AddEdge` | backend/workflows/audit_graph.py:20 | after the edge's source a run always goes to its target; every other node keeps its transitions |
| `AuditGraph.AddConditionalEdges` | backend/workflows/audit_graph.py:29-36 | after the edge's source a run goes to the node the path map gives for the router's answer, and stops when the answer is not in the map; every other node keeps its transitions |
| `AuditGraph.CreateAuditGraph` | backend/workflows/audit_graph.py:7-41 | the built graph has the three nodes, starts at browser, and every node has an outgoing edge |
| `AuditGraph.AuditGraphSteps` | backend/workflows/audit_graph.py:19-38 | browser always leads to vision_auditor, vision_auditor leads where `should_continue` says, data_structurer always leads to END, and END has no successor |
| `AuditGraph.Trace` | backend/workflows/audit_graph.py:19-38 | in a graph whose transitions lower the rank, a run from any node follows the edges, stops at a node with no way out, takes at most its rank in steps, and visits each node at most once |
| `AuditGraph.AuditGraphRanksFall` | backend/workflows/audit_graph.py:19-38 | every transition of the audit graph goes to a node closer to END, so every run ends |
| `AuditGraph.RunIs` | backend/workflows/audit_graph.py:22-38 | the only two runs are browser, vision_auditor, data_structurer, END and browser, vision_auditor, END, chosen by `should_continue` |
| `AuditGraph.RunShape` | backend/workflows/audit_graph.py:19-38 | every run starts at browser and then goes to vision_auditor. No node repeats, and the run ends at END within three steps. data_structurer runs if and only if `raw_analysis` is non-empty and does not start with "Error" |

## Left out

- The WebSocket transport itself: connecting, delivery and the order of events. The environment chooses these by calling the event methods. A connection can receive `Open` any number of times; one message is sent per `onopen`.
- `console` logging, all JSX and animation in `frontend/src/App.tsx` after line 83, and the styling in `UrlInput.tsx`. The rendering components `AuditResults.tsx` and `IssueCard.tsx` only display the report.
- `new URL(url)` is not modelled. Its verdict is the parameter `parses`, about which nothing is assumed.
- `UrlInput.UrlForm.Submit`: the browser's validation of the `type="url"` input is not modelled either. Its verdict is the parameter `browserAccepts`.
- `AuditGraph.AddEdge`: LangGraph's `add_edge` adds to a set of edges, so a node can fan out to several successors. The model gives each node one way out, replaced by a later edge. This agrees with the library here only because `create_audit_graph` adds one outgoing edge per node.
- Whether the WebSocket constructor throws is an input, `constructorThrows`. For the fixed endpoint it does not throw in practice.
- React's batching of state updates: each method gives the state once the handler has returned.
- `Session.Interpret`: fields of a type other than string or array are not modelled. A truthy non-string `error`, such as a number, would be stored as is. `setReport(data)` stores the whole parsed object; the model keeps only the summary and the issues.
- `JsonRequest.Decode` reads only the exact layout `Encode` writes, not JSON in general. It does not combine surrogate pairs. Python's `json.loads` is not modelled beyond this.
- `JsonRequest.EscapeChar`: Dafny characters are Unicode scalar values. The escaping JSON.stringify applies to lone surrogates in a JavaScript string is therefore not modelled.
- `AuditGraph.ShouldContinue`: a `raw_analysis` key holding Python `None` is not distinguished from a missing key; both lead to END.
- What the graph's nodes compute: the Playwright screenshot, the Groq vision call, and the LangChain refinement. The `raw_analysis` the router reads is an input.
- The backend's WebSocket loop (`app/api/routes.py`), the linear variant `app/workflows/audit_graph.py`, configuration and server start-up.
- No timeout exists in the source: a session whose backend never replies stays loading forever, and so does the model.
