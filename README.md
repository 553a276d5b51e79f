# ListaDocentes — a Dafny model of the teacher-list component

`ListaDocentes` (prueba701/src/Trabajadores/Docente.js) is a React component
that polls a remote endpoint for an array of teacher records. It keeps five
state slots: `docentes`, `loading`, `error`, `genderCount` and `isDataUpdated`.
After each fetch it updates them, counts the records by `sexo` with an array
reduce, and renders a loading indicator, an error message, or one card per
record plus a two-bar chart.

This project models the three pieces of logic in that component:

- `docentes.dfy`, module `Docentes`: the record type and the tally. `TallyFrom`
  is the reduce as a left fold, and `Tally` starts it from `{ M: 0, F: 0 }`.
  `CountSexo` is an independent reference count, and the lemmas tie the fold to
  it.
- `fetch_cycle.dfy`, module `FetchCycle`: the state as a value (`ViewState`)
  and the abstract outcome of a request (`Outcome`). `Start`, `Finish`, `Cycle`
  and `Run` say what a cycle, or a series of cycles, does to the state. The
  lemmas cover stale-on-error, the monotone `isDataUpdated` flag and the
  tally/records invariant.
- `render.dfy`, module `Render`: the early returns and the chart data as the
  pure function `Render` from a state to `Loading`, `ErrorView(message)` or
  `Display(records, bars)`.
- `lista_docentes.dfy`, module `Component`: the class `ListaDocentes`. Its fields
  are the five slots. Its methods perform the setter calls of `fetchData` as
  assignments. Each method's postcondition ties the new state to the matching
  `FetchCycle` function of the old state, and each method keeps the invariant
  `genderCount == Tally(docentes)`.

The network is a parameter. An `Outcome` is either `Response(ok, body)` or
`Rejected(message)`. The body is either `JsonArray(items)` or `NonArray`.
`Rejected` covers `fetch` or `response.json()` throwing. Its message is
whatever the runtime puts in the error.

The render tests `if (error)`, which is JavaScript truthiness, not a null
test. So an empty message counts as no error, and the stored records are
displayed instead (`Render.Truthy`, `Render.EmptyMessageShowsStale`). From
mount, a first cycle rejected with an empty message therefore shows an empty
card list and a zero chart before any data has arrived
(`Render.EmptyMessageAtMount`). The fixed messages are never empty. Only a
runtime rejection with an empty message reaches this case.

## Model

| member | source | states |
|---|---|---|
| `Docentes.TallyFrom` | prueba701/src/Trabajadores/Docente.js:27-37 | folding never lowers either count, and adds at most one per record |
| `Docentes.Tally` | prueba701/src/Trabajadores/Docente.js:27-37 | starting from `{ M: 0, F: 0 }`, M + F never exceeds the number of records |
| `Docentes.TallyFromCounts` | prueba701/src/Trabajadores/Docente.js:28-35 | from any accumulator, the fold adds exactly the number of "M" records to M and of "F" records to F |
| `Docentes.TallyCounts` | prueba701/src/Trabajadores/Docente.js:27-37 | the tally's M is the number of records whose `sexo` is exactly "M", and F the number whose `sexo` is exactly "F"; other values contribute nothing |
| `Docentes.CountKnownBound` | prueba701/src/Trabajadores/Docente.js:29-33 | the "M" and "F" counts together are at most the number of records, with equality exactly when every record is "M" or "F" |
| `Docentes.TallyCoversAll` | prueba701/src/Trabajadores/Docente.js:27-37 | M + F equals the number of records if and only if every record's `sexo` is "M" or "F" |
| `Docentes.CountPermutation` | prueba701/src/Trabajadores/Docente.js:29-33 | the count of records with a given `sexo` is the same for any reordering of the records |
| `Docentes.TallyPermutation` | prueba701/src/Trabajadores/Docente.js:27-37 | the tally does not depend on the order of the payload |
| `Docentes.TallyExample` | prueba701/src/Trabajadores/Docente.js:27-37 | records with "M", "F", "M", "X" tally to M = 2, F = 1 |
| `FetchCycle.InitialConsistent` | prueba701/src/Trabajadores/Docente.js:7-11 | the initial empty list and zero tally agree |
| `FetchCycle.SuccessReplaces` | prueba701/src/Trabajadores/Docente.js:23-47 | an ok array response stores the payload, its exact per-sex counts, `isDataUpdated` true and `error` null, and ends with `loading` false |
| `FetchCycle.FailureKeepsStale` | prueba701/src/Trabajadores/Docente.js:19-47 | a not-ok response, a non-array body or a rejection stores its message and leaves `docentes`, `genderCount` and `isDataUpdated` unchanged, ending with `loading` false |
| `FetchCycle.FailureMessages` | prueba701/src/Trabajadores/Docente.js:19-41 | a not-ok response yields "Error en la solicitud" whatever its body, and an ok non-array body yields "Formato de datos no válido" |
| `FetchCycle.CycleLoading` | prueba701/src/Trabajadores/Docente.js:16-47 | `loading` is true once a cycle starts and false once it ends, for every outcome |
| `FetchCycle.CyclePreservesConsistent` | prueba701/src/Trabajadores/Docente.js:23-45 | every cycle keeps `genderCount` equal to the tally of `docentes` |
| `FetchCycle.RunPreservesConsistent` | prueba701/src/Trabajadores/Docente.js:14-52 | any series of cycles keeps `genderCount` equal to the tally of `docentes` |
| `FetchCycle.ReachableConsistent` | prueba701/src/Trabajadores/Docente.js:7-47 | in every state reached from mount by any series of cycles, `genderCount` is the tally of `docentes` |
| `FetchCycle.RunEndsNotLoading` | prueba701/src/Trabajadores/Docente.js:46-47 | after one or more cycles `loading` is false |
| `FetchCycle.RunDataUpdated` | prueba701/src/Trabajadores/Docente.js:11-39 | after a series of cycles `isDataUpdated` is true exactly when it was true before or some cycle succeeded, so it is never lowered |
| `FetchCycle.InitialDataUpdated` | prueba701/src/Trabajadores/Docente.js:11-39 | from mount, `isDataUpdated` is true exactly when some cycle has succeeded, and once true it stays true through any further cycles |
| `FetchCycle.RunFailuresKeepStale` | prueba701/src/Trabajadores/Docente.js:44-47 | a series of failing cycles leaves the records, the tally and the data flag as they were |
| `Render.RenderPrecedence` | prueba701/src/Trabajadores/Docente.js:56-69 | Loading exactly when `loading && !isDataUpdated`; otherwise Error with the stored message exactly when `error` is truthy, even if records exist; otherwise Display of the stored records with bars `[M, F]` |
| `Render.ChartMatchesCards` | prueba701/src/Trabajadores/Docente.js:64-69 | in a consistent state (every state reachable from mount, by `FetchCycle.ReachableConsistent`) the displayed bars are the numbers of "M" and "F" records among the displayed cards, and they sum to at most the number of cards |
| `Render.FirstLoadGating` | prueba701/src/Trabajadores/Docente.js:56-58 | the mounted state shows Loading, and every cycle start shows Loading exactly until the first successful cycle |
| `Render.SuccessDisplays` | prueba701/src/Trabajadores/Docente.js:23-69 | after a successful cycle the view is Display of that payload with its exact counts, whatever error came before |
| `Render.StaleOnError` | prueba701/src/Trabajadores/Docente.js:24-61 | a success followed by a failure shows the failure's message, while the state still holds the first cycle's records and their counts |
| `Render.EmptyMessageShowsStale` | prueba701/src/Trabajadores/Docente.js:44-62 | a rejection with an empty message leaves a falsy error, so once data exists the stale records are displayed |
| `Render.EmptyMessageAtMount` | prueba701/src/Trabajadores/Docente.js:44-69 | from mount, a first cycle rejected with an empty message displays an empty card list with bars `[0, 0]` instead of an error |
| `Component.ListaDocentes.constructor` | prueba701/src/Trabajadores/Docente.js:7-11 | the fields start as the initial state, in which the tally matches the records |
| `Component.ListaDocentes.StartCycle` | prueba701/src/Trabajadores/Docente.js:16 | raises `loading` and changes nothing else |
| `Component.ListaDocentes.FinishCycle` | prueba701/src/Trabajadores/Docente.js:19-48 | on success, stores the payload, its tally, `isDataUpdated` true and `error` null; otherwise keeps the records, tally and flag and stores the failure message; lowers `loading` either way; keeps the invariant |
| `Component.ListaDocentes.FetchData` | prueba701/src/Trabajadores/Docente.js:14-48 | one whole cycle, equal to `FetchCycle.Cycle` of the old state; `isDataUpdated` is never lowered |

## Left out

- The HTTP request, `response.ok` and `response.json()` (lines 17-22) are I/O and JSON decoding. They become the `Outcome` parameter.
- An array payload with a `null` element is not modelled. Model elements are always records. In the source, reading `.sexo` of `null` throws after `setDocentes(data)`. The records would be replaced, the tally and `isDataUpdated` would stay stale, and `error` would hold the runtime's message. So `genderCount == Tally(docentes)` would not hold in that state.
- A non-string `sexo` value is represented by a string other than "M" and "F". The source only compares it with `===`, so the tally treats both the same.
- The `setInterval` polling every 3000 ms, the first immediate call, and the `clearInterval` on unmount (lines 51-53) are timer scheduling. They are not modelled, and neither is "no update after unmount". `Run` stands for a series of completed cycles.
- Cycles that overlap in flight, and the order in which they resolve, are async interleaving. Each cycle's updates are applied in one step, in program order.
- React's hook semantics, re-rendering and setter batching are not modelled. The setters of a cycle are applied in program order.
- The JSX markup, CSS classes, chart colours and the Chart.js component (lines 70-111) are presentation. The chart labels and y-axis options are kept only as constants (`Render.Labels`, `Render.BeginAtZero`, `Render.StepSize`, `Render.Precision`).
