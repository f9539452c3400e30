/** End-to-end consequences of the chat dispatcher for what the data panel
    shows, on the seed records. */
module Scenarios {
  import opened JsValues
  import opened Store
  import opened Chat
  import opened DataView

  const InitialState := StoreState(InitialData, NoFilters, TableMode, false)

  function FilterCall(f: FilterState): ToolCall
  {
    ToolCall("filterData", Some(ToolArgs(f, Absent)))
  }

  /** "Show me sales in the North": one `filterData({region: "North"})` call
      from the initial state leaves exactly that filter, and the panel shows
      the two northern seed records. */
  lemma NorthScenario()
    ensures var r := Dispatch(InitialState, [FilterCall(NoFilters.(region := Value("North")))]);
      && r.failedAt == None
      && r.state.activeFilters == NoFilters.(region := Value("North"))
      && r.state.viewMode == TableMode
      && Filtered(r.state.data, r.state.activeFilters) == [InitialData[0], InitialData[4]]
  {
    var calls := [FilterCall(NoFilters.(region := Value("North")))];
    var f := NoFilters.(region := Value("North"));
    assert calls[..0] == [];
    assert ApplyCalls(InitialState, calls) == ApplyCall(InitialState, "filterData", ToolArgs(f, Absent));
    MergeIntoEmpty(f);
    NorthRecords();
  }

  lemma NorthRecords()
    ensures Filtered(InitialData, NoFilters.(region := Value("North"))) == [InitialData[0], InitialData[4]]
  {
    var f := NoFilters.(region := Value("North"));
    var d := InitialData;
    assert !Keep(f, d[1]) && !Keep(f, d[2]) && !Keep(f, d[3]) && Keep(f, d[4]);
    assert !Keep(f, d[5]) && !Keep(f, d[6]) && !Keep(f, d[7]);
    assert d[7..][1..] == [];
    assert Filtered(d[7..], f) == [];
    assert d[6..][1..] == d[7..];
    assert Filtered(d[6..], f) == [];
    assert d[5..][1..] == d[6..];
    assert Filtered(d[5..], f) == [];
    assert d[4..][1..] == d[5..];
    assert Filtered(d[4..], f) == [d[4]];
    assert d[3..][1..] == d[4..];
    assert Filtered(d[3..], f) == [d[4]];
    assert d[2..][1..] == d[3..];
    assert Filtered(d[2..], f) == [d[4]];
    assert d[1..][1..] == d[2..];
    assert Filtered(d[1..], f) == [d[4]];
    assert Keep(f, d[0]);
  }

  /** "Show me a chart": one `changeView({mode: "chart"})` call from the
      initial state switches the view and leaves the filters empty. */
  lemma ChartScenario()
    ensures var r := Dispatch(InitialState, [ToolCall("changeView", Some(ToolArgs(NoFilters, Value("chart"))))]);
      && r.failedAt == None
      && InitialState.viewMode == TableMode
      && r.state.viewMode == ChartMode
      && r.state.activeFilters == NoFilters
  {
    var args := ToolArgs(NoFilters, Value("chart"));
    var calls := [ToolCall("changeView", Some(args))];
    assert calls[..0] == [];
    assert ApplyCalls(InitialState, calls) == ApplyCall(InitialState, "changeView", args);
  }

  /** A call to a tool that does not exist changes nothing. */
  lemma UnknownToolScenario(s: StoreState, args: ToolArgs)
    ensures Dispatch(s, [ToolCall("deleteAllData", Some(args))]) == DispatchResult(s, None)
  {
    var calls := [ToolCall("deleteAllData", Some(args))];
    assert calls[..0] == [];
    assert ApplyCalls(s, calls) == ApplyCall(s, "deleteAllData", args);
    UnknownToolIgnored(s, "deleteAllData", args);
  }

  /** A malformed first call hides a valid `clearFilters` after it. */
  lemma MalformedCallHidesLaterClear(s: StoreState, args: ToolArgs)
    ensures var r := Dispatch(s, [ToolCall("filterData", None), ToolCall("clearFilters", Some(args))]);
      r == DispatchResult(s, Some(0))
  {
    var calls := [ToolCall("filterData", None), ToolCall("clearFilters", Some(args))];
    assert calls[..0] == [];
    DispatchStopsAtParseFailure(s, calls, 0, []);
  }
}
