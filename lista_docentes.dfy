/**
 * The component `ListaDocentes` as an object whose fields are its state
 * slots; each setter call of `fetchData` becomes an assignment.
 */
module Component {
  import opened Docentes
  import opened FetchCycle

  class ListaDocentes {
    var docentes: seq<Docente>
    var loading: bool
    var error: Option<string>
    var genderCount: GenderCount
    var isDataUpdated: bool

    /** The fields as one value. */
    function State(): ViewState
      reads this
    {
      ViewState(docentes, loading, error, genderCount, isDataUpdated)
    }

    /** The stored tally is always the tally of the stored records. */
    ghost predicate Valid()
      reads this
    {
      Consistent(State())
    }

    /** The `useState` initial values. */
    constructor ()
      ensures State() == Initial
      ensures Valid()
    {
      docentes := [];
      loading := true;
      error := None;
      genderCount := Zero;
      isDataUpdated := false;
      InitialConsistent();
    }

    /** The start of `fetchData`, before the request is awaited. */
    method StartCycle()
      requires Valid()
      modifies this
      ensures Valid()
      ensures State() == Start(old(State()))
      ensures loading
    {
      loading := true;
    }

    /** The end of `fetchData` once the outcome of the request is known. */
    method FinishCycle(o: Outcome)
      requires Valid()
      modifies this
      ensures Valid()
      ensures State() == Finish(old(State()), o)
      ensures !loading
      ensures Succeeds(o) ==>
        (docentes == o.body.items && genderCount == Tally(o.body.items) && isDataUpdated && error == None)
      ensures !Succeeds(o) ==>
        (docentes == old(docentes) && genderCount == old(genderCount)
         && isDataUpdated == old(isDataUpdated) && error == Some(FailureMessage(o)))
    {
      match o {
        case Rejected(m) =>
          error := Some(m);
        case Response(ok, body) =>
          if !ok {
            error := Some(NotOkMessage);
          } else if body.JsonArray? {
            var data := body.items;
            docentes := data;
            var counts := Tally(data);
            genderCount := counts;
            isDataUpdated := true;
            error := None;
          } else {
            error := Some(FormatMessage);
          }
      }
      loading := false;
    }

    /** One whole `fetchData` cycle. */
    method FetchData(o: Outcome)
      requires Valid()
      modifies this
      ensures Valid()
      ensures State() == Cycle(old(State()), o)
      ensures old(isDataUpdated) ==> isDataUpdated
    {
      StartCycle();
      FinishCycle(o);
    }
  }
}
