/**
 * What the component returns for a given state: the loading indicator, the
 * error message, or the cards plus a two-bar chart.
 */
module Render {
  import opened Docentes
  import opened FetchCycle

  /** The three things the component can render. */
  datatype View =
    | Loading
    | ErrorView(message: string)
    | Display(records: seq<Docente>, bars: seq<nat>)

  /** Chart labels, in the order of the bars. */
  const Labels: seq<string> := ["Masculino", "Femenino"]
  /** Chart y-axis options. */
  const BeginAtZero: bool := true
  const StepSize: nat := 1
  const Precision: nat := 0

  /** JavaScript truthiness of the `error` slot: `null` and the empty string are falsy. */
  predicate Truthy(e: Option<string>)
  {
    e.Some? && e.value != ""
  }

  /** The two early returns, then the cards and the chart data. */
  function Render(s: ViewState): View
  {
    if s.loading && !s.isDataUpdated then Loading
    else if Truthy(s.error) then ErrorView(s.error.value)
    else Display(s.docentes, [s.genderCount.M, s.genderCount.F])
  }

  /**
   * The loading indicator shows exactly while loading before any data;
   * otherwise a truthy error wins over any stored records; otherwise the
   * stored records are displayed with the stored tally as the bars.
   */
  lemma RenderPrecedence(s: ViewState)
    ensures Render(s).Loading? <==> s.loading && !s.isDataUpdated
    ensures Render(s).ErrorView? <==> !(s.loading && !s.isDataUpdated) && Truthy(s.error)
    ensures Render(s).ErrorView? ==> Some(Render(s).message) == s.error
    ensures Render(s).Display? ==>
      (Render(s).records == s.docentes && Render(s).bars == [s.genderCount.M, s.genderCount.F])
  {
  }

  /** In a consistent state the bars are the numbers of "M" and "F" cards shown, which never exceed the cards. */
  lemma ChartMatchesCards(s: ViewState)
    requires Consistent(s)
    requires Render(s).Display?
    ensures var v := Render(s);
      && v.bars == [CountSexo(v.records, "M"), CountSexo(v.records, "F")]
      && v.bars[0] + v.bars[1] <= |v.records|
  {
    TallyCounts(s.docentes);
  }

  /** Until the first successful cycle every cycle start shows the loading indicator; after it, none does. */
  lemma FirstLoadGating(os: seq<Outcome>)
    ensures Render(Initial) == Loading
    ensures Render(Start(Run(Initial, os))) == Loading <==> !AnySucceeds(os)
  {
    RunDataUpdated(Initial, os);
  }

  /** A successful cycle shows its payload with its exact counts, whatever error the previous cycle left. */
  lemma SuccessDisplays(s: ViewState, data: seq<Docente>)
    ensures Render(Cycle(s, Response(true, JsonArray(data))))
         == Display(data, [CountSexo(data, "M"), CountSexo(data, "F")])
  {
    TallyCounts(data);
  }

  /**
   * A successful cycle followed by a failing one shows the error, yet the
   * state still holds the first cycle's records and their tally.
   */
  lemma StaleOnError(s: ViewState, data: seq<Docente>, f: Outcome)
    requires !Succeeds(f) && FailureMessage(f) != ""
    ensures var t := Run(s, [Response(true, JsonArray(data)), f]);
      && Render(t) == ErrorView(FailureMessage(f))
      && t.docentes == data
      && t.genderCount == GenderCount(CountSexo(data, "M"), CountSexo(data, "F"))
  {
    var ok := Response(true, JsonArray(data));
    var u := Cycle(s, ok);
    SuccessReplaces(s, data);
    FailureKeepsStale(u, f);
    assert [ok, f][1..] == [f] && [f][1..] == [];
    assert Run(s, [ok, f]) == Run(u, [f]) == Run(Cycle(u, f), []);
  }

  /** A rejection whose message is empty leaves a falsy error, so the stale records are displayed, not an error. */
  lemma EmptyMessageShowsStale(s: ViewState)
    ensures var t := Cycle(s, Rejected(""));
      (s.isDataUpdated ==> Render(t) == Display(s.docentes, [s.genderCount.M, s.genderCount.F]))
  {
  }

  /**
   * From mount, a first cycle rejected with an empty message leaves a falsy
   * error and no data, so an empty card list and a zero chart are shown.
   */
  lemma EmptyMessageAtMount()
    ensures Render(Run(Initial, [Rejected("")])) == Display([], [0, 0])
  {
    assert [Rejected("")][1..] == [];
  }
}
