/**
 * The component's state and how one fetch cycle changes it: `loading` is
 * raised when the cycle starts; when it ends, the try/catch/finally either
 * stores a new payload and its tally or records an error message, and
 * `loading` is lowered in every case.
 */
module FetchCycle {
  import opened Docentes

  /** `None` stands for JavaScript's `null`. */
  datatype Option<+T> = None | Some(value: T)

  /** Message thrown when the HTTP response is not ok. */
  const NotOkMessage: string := "Error en la solicitud"
  /** Message thrown when an ok response's JSON body is not an array. */
  const FormatMessage: string := "Formato de datos no válido"

  /** The decoded JSON body, as far as `Array.isArray` tells it apart. */
  datatype Payload = JsonArray(items: seq<Docente>) | NonArray

  /**
   * How the awaited part of a cycle ends: a response with its `ok` flag and
   * its decoded body, or a rejection of `fetch` or of `response.json()`
   * carrying the runtime's error message.
   */
  datatype Outcome = Response(ok: bool, body: Payload) | Rejected(message: string)

  /** The five `useState` slots of the component. */
  datatype ViewState = ViewState(
    docentes: seq<Docente>,
    loading: bool,
    error: Option<string>,
    genderCount: GenderCount,
    isDataUpdated: bool)

  /** The state at mount: no records, loading, no error, a zero tally, no data yet. */
  const Initial: ViewState := ViewState([], true, None, Zero, false)

  /** The stored tally is the tally of the stored records. */
  predicate Consistent(s: ViewState)
  {
    s.genderCount == Tally(s.docentes)
  }

  /** An outcome that takes the success path: an ok response with an array body. */
  predicate Succeeds(o: Outcome)
  {
    o.Response? && o.ok && o.body.JsonArray?
  }

  /** The message `setError` receives when an outcome takes the catch path. */
  function FailureMessage(o: Outcome): string
    requires !Succeeds(o)
  {
    match o
    case Rejected(m) => m
    case Response(ok, _) => if !ok then NotOkMessage else FormatMessage
  }

  /** The first statement of a cycle, `setLoading(true)`. */
  function Start(s: ViewState): ViewState
  {
    s.(loading := true)
  }

  /** The rest of a cycle once the awaited outcome is known: the try block, its catch, and the finally. */
  function Finish(s: ViewState, o: Outcome): ViewState
  {
    match o
    case Rejected(m) => s.(error := Some(m), loading := false)
    case Response(ok, body) =>
      if !ok then s.(error := Some(NotOkMessage), loading := false)
      else match body
        case NonArray => s.(error := Some(FormatMessage), loading := false)
        case JsonArray(data) =>
          s.(docentes := data, genderCount := Tally(data), isDataUpdated := true,
             error := None, loading := false)
  }

  /** One whole fetch cycle. */
  function Cycle(s: ViewState, o: Outcome): ViewState
  {
    Finish(Start(s), o)
  }

  /** Cycles run one after the other, each on the state the previous one left. */
  function Run(s: ViewState, os: seq<Outcome>): ViewState
    decreases |os|
  {
    if os == [] then s else Run(Cycle(s, os[0]), os[1..])
  }

  /** Some outcome in `os` takes the success path. */
  predicate AnySucceeds(os: seq<Outcome>)
  {
    exists i :: 0 <= i < |os| && Succeeds(os[i])
  }

  /** The state at mount is consistent. */
  lemma InitialConsistent()
    ensures Consistent(Initial)
  {
    assert Tally([]) == Zero;
  }

  /**
   * A successful cycle replaces the records with the payload, stores its
   * exact per-sex counts, marks data as updated, clears the error and ends
   * with `loading` false.
   */
  lemma SuccessReplaces(s: ViewState, data: seq<Docente>)
    ensures var t := Cycle(s, Response(true, JsonArray(data)));
      && t.docentes == data
      && t.genderCount == GenderCount(CountSexo(data, "M"), CountSexo(data, "F"))
      && t.isDataUpdated
      && t.error == None
      && !t.loading
  {
    TallyCounts(data);
  }

  /**
   * A failing cycle records its message and keeps the previous records,
   * tally and data flag (stale data stays), ending with `loading` false.
   */
  lemma FailureKeepsStale(s: ViewState, o: Outcome)
    requires !Succeeds(o)
    ensures var t := Cycle(s, o);
      && t.docentes == s.docentes
      && t.genderCount == s.genderCount
      && t.isDataUpdated == s.isDataUpdated
      && t.error == Some(FailureMessage(o))
      && !t.loading
  {
  }

  /** A not-ok response and a non-array body carry the two fixed messages, whatever the body. */
  lemma FailureMessages(b: Payload)
    ensures FailureMessage(Response(false, b)) == "Error en la solicitud"
    ensures FailureMessage(Response(true, NonArray)) == "Formato de datos no válido"
  {
  }

  /** `loading` is true once a cycle has started and false once it has ended, whatever the outcome. */
  lemma CycleLoading(s: ViewState, o: Outcome)
    ensures Start(s).loading
    ensures !Cycle(s, o).loading
  {
  }

  /** Every cycle keeps the stored tally equal to the tally of the stored records. */
  lemma CyclePreservesConsistent(s: ViewState, o: Outcome)
    requires Consistent(s)
    ensures Consistent(Cycle(s, o))
  {
  }

  /** Every state reached from a consistent one by cycles is consistent. */
  lemma {:induction false} RunPreservesConsistent(s: ViewState, os: seq<Outcome>)
    requires Consistent(s)
    ensures Consistent(Run(s, os))
    decreases |os|
  {
    if os != [] {
      CyclePreservesConsistent(s, os[0]);
      RunPreservesConsistent(Cycle(s, os[0]), os[1..]);
    }
  }

  /** Every state reached from mount by cycles keeps the tally equal to the tally of the records. */
  lemma ReachableConsistent(os: seq<Outcome>)
    ensures Run(Initial, os).genderCount == Tally(Run(Initial, os).docentes)
  {
    InitialConsistent();
    RunPreservesConsistent(Initial, os);
  }

  /** After at least one cycle, `loading` is false. */
  lemma {:induction false} RunEndsNotLoading(s: ViewState, os: seq<Outcome>)
    requires os != []
    ensures !Run(s, os).loading
    decreases |os|
  {
    if os[1..] != [] {
      RunEndsNotLoading(Cycle(s, os[0]), os[1..]);
    }
  }

  /**
   * `isDataUpdated` is only ever raised: after a run it is true exactly when
   * it was true before or some cycle of the run succeeded.
   */
  lemma {:induction false} RunDataUpdated(s: ViewState, os: seq<Outcome>)
    ensures Run(s, os).isDataUpdated <==> s.isDataUpdated || AnySucceeds(os)
    decreases |os|
  {
    if os != [] {
      RunDataUpdated(Cycle(s, os[0]), os[1..]);
      if AnySucceeds(os[1..]) {
        var i :| 0 <= i < |os[1..]| && Succeeds(os[1..][i]);
        assert Succeeds(os[i + 1]);
      }
      if AnySucceeds(os) && !Succeeds(os[0]) {
        var i :| 0 <= i < |os| && Succeeds(os[i]);
        assert i != 0 && Succeeds(os[1..][i - 1]);
      }
    }
  }

  /** From mount, data is marked updated exactly when some cycle has succeeded; once true it stays true. */
  lemma InitialDataUpdated(os: seq<Outcome>, more: seq<Outcome>)
    ensures Run(Initial, os).isDataUpdated <==> AnySucceeds(os)
    ensures Run(Initial, os).isDataUpdated ==> Run(Run(Initial, os), more).isDataUpdated
  {
    RunDataUpdated(Initial, os);
    RunDataUpdated(Run(Initial, os), more);
  }

  /** A run of cycles none of which succeeds leaves the records, the tally and the data flag as they were. */
  lemma {:induction false} RunFailuresKeepStale(s: ViewState, os: seq<Outcome>)
    requires forall i :: 0 <= i < |os| ==> !Succeeds(os[i])
    ensures Run(s, os).docentes == s.docentes
    ensures Run(s, os).genderCount == s.genderCount
    ensures Run(s, os).isDataUpdated == s.isDataUpdated
    decreases |os|
  {
    if os != [] {
      assert !Succeeds(os[0]);
      assert forall i :: 0 <= i < |os[1..]| ==> !Succeeds(os[1..][i]) by {
        forall i | 0 <= i < |os[1..]| ensures !Succeeds(os[1..][i]) {
          assert os[1..][i] == os[i + 1];
        }
      }
      RunFailuresKeepStale(Cycle(s, os[0]), os[1..]);
    }
  }
}
