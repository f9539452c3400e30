/** The chat panel (src/components/dashboard/ChatInterface.tsx): the message
    history, the input box, the submit handler and the loop that applies the
    assistant's tool calls to the dashboard store. */
module Chat {
  import opened JsValues
  import opened Store

  datatype Role = User | Assistant | System

  /** The parsed arguments object of a tool call, restricted to the keys the
      dispatcher reads: the five filter keys and `mode`. */
  datatype ToolArgs = ToolArgs(filters: FilterState, mode: Prop<string>)

  /** A tool call whose `function.arguments` text has been through
      `JSON.parse`: `None` when parsing throws. */
  datatype ToolCall = ToolCall(name: string, arguments: Option<ToolArgs>)

  datatype Message = Message(role: Role, content: Option<string>, toolCalls: Option<seq<ToolCall>>)

  const Greeting := Message(Assistant,
    Some("Hello! I'm your data assistant. You can ask me to filter data by region, category, or switch views."),
    None)

  // ---------------------------------------------------------------------------
  // Cleaning the arguments of `filterData`

  /** `delete f[k]`. */
  function Delete(f: FilterState, k: FilterKey): (r: FilterState)
    ensures Keys(r) == Keys(f) - {k}
    ensures forall k' :: k' != k ==> Entry(r, k') == Entry(f, k')
  {
    match k
    case MinAmount => f.(minAmount := Absent)
    case MaxAmount => f.(maxAmount := Absent)
    case Category => f.(category := Absent)
    case Region => f.(region := Absent)
    case Search => f.(search := Absent)
  }

  /** The arguments with every `undefined`-valued key removed. */
  function StripUndefined(p: FilterState): (r: FilterState)
    ensures forall k :: Entry(r, k) == if Entry(p, k) == Some(JsUndefined) then None else Entry(p, k)
  {
    FilterState(
      if p.minAmount.Undefined? then Absent else p.minAmount,
      if p.maxAmount.Undefined? then Absent else p.maxAmount,
      if p.category.Undefined? then Absent else p.category,
      if p.region.Undefined? then Absent else p.region,
      if p.search.Undefined? then Absent else p.search)
  }

  const AllKeys: seq<FilterKey> := [MinAmount, MaxAmount, Category, Region, Search]

  /** The key-by-key clean-up loop: each key whose value is `undefined` is
      deleted from the arguments. */
  method DeleteUndefinedKeys(args: FilterState) returns (cleaned: FilterState)
    ensures cleaned == StripUndefined(args)
  {
    cleaned := args;
    var i := 0;
    while i < |AllKeys|
      invariant 0 <= i <= |AllKeys|
      invariant forall j :: 0 <= j < i ==> Entry(cleaned, AllKeys[j]) == Entry(StripUndefined(args), AllKeys[j])
      invariant forall j :: i <= j < |AllKeys| ==> Entry(cleaned, AllKeys[j]) == Entry(args, AllKeys[j])
    {
      var k := AllKeys[i];
      if Entry(cleaned, k) == Some(JsUndefined) {
        cleaned := Delete(cleaned, k);
      }
      i := i + 1;
    }
    forall k ensures Entry(cleaned, k) == Entry(StripUndefined(args), k) {
      assert k == AllKeys[0] || k == AllKeys[1] || k == AllKeys[2] || k == AllKeys[3] || k == AllKeys[4];
    }
    EntryExtensional(cleaned, StripUndefined(args));
  }

  // ---------------------------------------------------------------------------
  // The dispatch of tool calls, as a function of the store's state

  /** One tool call with parsed arguments, by name; any other name is ignored. */
  function ApplyCall(s: StoreState, name: string, args: ToolArgs): (r: StoreState)
    ensures r.data == s.data && r.isLoading == s.isLoading
  {
    if name == "filterData" then s.(activeFilters := Merge(s.activeFilters, StripUndefined(args.filters)))
    else if name == "changeView" then s.(viewMode := Read(StringEntry(args.mode)))
    else if name == "clearFilters" then s.(activeFilters := NoFilters)
    else s
  }

  predicate AllParsed(calls: seq<ToolCall>)
  {
    forall j :: 0 <= j < |calls| ==> calls[j].arguments.Some?
  }

  /** The calls applied one after the other, first to last. */
  function ApplyCalls(s: StoreState, calls: seq<ToolCall>): (r: StoreState)
    requires AllParsed(calls)
    ensures r.data == s.data && r.isLoading == s.isLoading
    decreases |calls|
  {
    if calls == [] then s
    else
      var last := calls[|calls| - 1];
      ApplyCall(ApplyCalls(s, calls[..|calls| - 1]), last.name, last.arguments.value)
  }

  /** The index of the first call whose arguments do not parse. */
  function FirstParseFailure(calls: seq<ToolCall>): (r: Option<nat>)
    ensures r.None? <==> AllParsed(calls)
    ensures r.Some? ==> r.value < |calls| && calls[r.value].arguments.None? && AllParsed(calls[..r.value])
    decreases |calls|
  {
    if calls == [] then None
    else if calls[0].arguments.None? then Some(0)
    else
      match FirstParseFailure(calls[1..])
      case None => None
      case Some(i) => Some(i + 1)
  }

  /** The store state after the loop, and the index of the call whose
      `JSON.parse` threw, if one did. */
  datatype DispatchResult = DispatchResult(state: StoreState, failedAt: Option<nat>)

  /** The `forEach` over `tool_calls`: calls are applied in order until one
      fails to parse; that one throws, so it and every later call are skipped. */
  function Dispatch(s: StoreState, calls: seq<ToolCall>): (r: DispatchResult)
    ensures r.state.data == s.data && r.state.isLoading == s.isLoading
  {
    match FirstParseFailure(calls)
    case None => DispatchResult(ApplyCalls(s, calls), None)
    case Some(i) => DispatchResult(ApplyCalls(s, calls[..i]), Some(i))
  }

  /** The calls the `if (aiMessage.tool_calls)` guard lets through. */
  function ReplyCalls(m: Message): seq<ToolCall>
  {
    match m.toolCalls
    case None => []
    case Some(calls) => calls
  }

  // ---------------------------------------------------------------------------
  // Properties of the dispatch

  /** Applying a list then another equals applying their concatenation. */
  lemma {:induction false} ApplyCallsAppend(s: StoreState, a: seq<ToolCall>, b: seq<ToolCall>)
    requires AllParsed(a) && AllParsed(b)
    ensures AllParsed(a + b)
    ensures ApplyCalls(s, a + b) == ApplyCalls(ApplyCalls(s, a), b)
    decreases |b|
  {
    if b == [] {
      assert a + b == a;
    } else {
      var ab := a + b;
      assert ab[..|ab| - 1] == a + b[..|b| - 1];
      assert ab[|ab| - 1] == b[|b| - 1];
      ApplyCallsAppend(s, a, b[..|b| - 1]);
    }
  }

  /** A call whose arguments fail to parse ends the loop: the calls before it
      stay applied, and what comes after it does not matter. */
  lemma DispatchStopsAtParseFailure(s: StoreState, calls: seq<ToolCall>, i: nat, rest: seq<ToolCall>)
    requires i < |calls| && calls[i].arguments.None? && AllParsed(calls[..i])
    ensures Dispatch(s, calls) == DispatchResult(ApplyCalls(s, calls[..i]), Some(i))
    ensures Dispatch(s, calls[..i + 1] + rest) == Dispatch(s, calls)
  {
    FirstFailureIs(calls, i);
    var longer := calls[..i + 1] + rest;
    assert longer[..i] == calls[..i];
    assert longer[i] == calls[i];
    FirstFailureIs(longer, i);
  }

  lemma FirstFailureIs(calls: seq<ToolCall>, i: nat)
    requires i < |calls| && calls[i].arguments.None? && AllParsed(calls[..i])
    ensures FirstParseFailure(calls) == Some(i)
  {
  }

  /** When every call parses, all of them are applied in list order. */
  lemma DispatchAllParsed(s: StoreState, calls: seq<ToolCall>)
    requires AllParsed(calls)
    ensures Dispatch(s, calls) == DispatchResult(ApplyCalls(s, calls), None)
  {
  }

  /** A reply without tool calls leaves the store as it was. */
  lemma DispatchNoCalls(s: StoreState)
    ensures Dispatch(s, []) == DispatchResult(s, None)
  {
  }

  /** `filterData`: keys holding `undefined` never overwrite an existing
      filter; every other key of the arguments overwrites; keys the arguments
      lack keep their value; the view mode is untouched. */
  lemma FilterDataMerges(s: StoreState, args: ToolArgs)
    ensures var r := ApplyCall(s, "filterData", args);
      && r.viewMode == s.viewMode
      && (forall k :: Entry(args.filters, k).Some? && Entry(args.filters, k) != Some(JsUndefined) ==>
            Entry(r.activeFilters, k) == Entry(args.filters, k))
      && (forall k :: Entry(args.filters, k).None? || Entry(args.filters, k) == Some(JsUndefined) ==>
            Entry(r.activeFilters, k) == Entry(s.activeFilters, k))
  {
  }

  /** `changeView` stores `args.mode` as it is, with no check that it is
      "table" or "chart"; the filters are untouched; a repeat changes nothing. */
  lemma ChangeViewUnchecked(s: StoreState, args: ToolArgs)
    ensures var r := ApplyCall(s, "changeView", args);
      && r.activeFilters == s.activeFilters
      && (args.mode.Value? ==> r.viewMode == JsString(args.mode.value))
      && (args.mode.Absent? || args.mode.Undefined? ==> r.viewMode == JsUndefined)
      && (args.mode.Null? ==> r.viewMode == JsNull)
      && ApplyCall(r, "changeView", args) == r
  {
  }

  /** `clearFilters` empties the bag whatever its arguments and leaves the
      view mode alone. */
  lemma ClearFiltersIgnoresArgs(s: StoreState, a: ToolArgs, b: ToolArgs)
    ensures ApplyCall(s, "clearFilters", a) == ApplyCall(s, "clearFilters", b)
    ensures ApplyCall(s, "clearFilters", a).activeFilters == NoFilters
    ensures ApplyCall(s, "clearFilters", a).viewMode == s.viewMode
  {
  }

  /** A tool with any other name leaves the store unchanged. */
  lemma UnknownToolIgnored(s: StoreState, name: string, args: ToolArgs)
    requires name != "filterData" && name != "changeView" && name != "clearFilters"
    ensures ApplyCall(s, name, args) == s
  {
  }

  /** Calls run in list order: `filterData` then `clearFilters` ends with no filters. */
  lemma FilterThenClear(s: StoreState, a: ToolArgs, b: ToolArgs)
    ensures var r := Dispatch(s, [ToolCall("filterData", Some(a)), ToolCall("clearFilters", Some(b))]);
      r.failedAt == None && r.state.activeFilters == NoFilters && Keys(r.state.activeFilters) == {}
  {
    var calls := [ToolCall("filterData", Some(a)), ToolCall("clearFilters", Some(b))];
    assert calls[..1] == [calls[0]];
    assert calls[..1][..0] == [];
  }

  /** ... and `clearFilters` then `filterData(a)` ends with exactly the keys of
      `a` that do not hold `undefined`, with `a`'s values. */
  lemma ClearThenFilter(s: StoreState, a: ToolArgs, b: ToolArgs)
    ensures var r := Dispatch(s, [ToolCall("clearFilters", Some(b)), ToolCall("filterData", Some(a))]);
      && r.failedAt == None
      && r.state.activeFilters == StripUndefined(a.filters)
      && (forall k :: k in Keys(r.state.activeFilters) <==> k in Keys(a.filters) && Entry(a.filters, k) != Some(JsUndefined))
  {
    var calls := [ToolCall("clearFilters", Some(b)), ToolCall("filterData", Some(a))];
    assert calls[..1] == [calls[0]];
    assert calls[..1][..0] == [];
    var cleared := ApplyCalls(s, calls[..1]);
    assert cleared.activeFilters == NoFilters;
    assert ApplyCalls(s, calls) == ApplyCall(cleared, "filterData", a);
    MergeIntoEmpty(StripUndefined(a.filters));
  }

  // ---------------------------------------------------------------------------
  // The input box

  /** The characters `String.prototype.trim` removes: white space and line
      terminators. */
  predicate IsJsWhitespace(c: char)
  {
    c in {'\t', '\n', '\U{000B}', '\U{000C}', '\r', ' ', '\U{00A0}', '\U{1680}',
          '\U{2000}', '\U{2001}', '\U{2002}', '\U{2003}', '\U{2004}', '\U{2005}',
          '\U{2006}', '\U{2007}', '\U{2008}', '\U{2009}', '\U{200A}',
          '\U{2028}', '\U{2029}', '\U{202F}', '\U{205F}', '\U{3000}', '\U{FEFF}'}
  }

  function TrimStart(s: string): (r: string)
    ensures |r| <= |s| && r == s[|s| - |r|..]
    ensures r != [] ==> !IsJsWhitespace(r[0])
    ensures forall i :: 0 <= i < |s| - |r| ==> IsJsWhitespace(s[i])
  {
    if s != [] && IsJsWhitespace(s[0]) then TrimStart(s[1..]) else s
  }

  function TrimEnd(s: string): (r: string)
    ensures |r| <= |s| && r == s[..|r|]
    ensures r != [] ==> !IsJsWhitespace(r[|r| - 1])
    ensures forall i :: |r| <= i < |s| ==> IsJsWhitespace(s[i])
  {
    if s != [] && IsJsWhitespace(s[|s| - 1]) then TrimEnd(s[..|s| - 1]) else s
  }

  function Trim(s: string): string
  {
    TrimEnd(TrimStart(s))
  }

  /** `!input.trim()` holds exactly when the input is all white space. */
  lemma TrimEmptyIffBlank(s: string)
    ensures Trim(s) == "" <==> forall i :: 0 <= i < |s| ==> IsJsWhitespace(s[i])
  {
  }

  // ---------------------------------------------------------------------------
  // The component's state

  /** The chat component: its message history and the text of its input box. */
  class ChatSession {
    var messages: seq<Message>
    var input: string

    constructor ()
      ensures messages == [Greeting] && input == ""
    {
      messages := [Greeting];
      input := "";
    }

    /** The input box's change handler. */
    method SetInput(value: string)
      modifies this
      ensures input == value && messages == old(messages)
    {
      input := value;
    }

    /** The form's submit handler: blank input is ignored; otherwise the input
        becomes a user message, the box is cleared, and the grown history is
        the request sent to the chat endpoint. */
    method HandleSubmit() returns (request: Option<seq<Message>>)
      modifies this
      ensures Trim(old(input)) == "" ==>
        messages == old(messages) && input == old(input) && request == None
      ensures Trim(old(input)) != "" ==>
        && messages == old(messages) + [Message(User, Some(old(input)), None)]
        && input == ""
        && request == Some(messages)
    {
      if Trim(input) == "" {
        return None;
      }
      var userMessage := Message(User, Some(input), None);
      var newContext := messages + [userMessage];
      messages := newContext;
      input := "";
      request := Some(newContext);
    }

    /** The mutation's success handler: the reply joins the history once,
        before any tool call runs; then the tool calls are applied to the
        store one by one. Returns the index of the call whose arguments threw
        in `JSON.parse`, if one did. */
    method OnSuccess(reply: Message, store: DashboardStore) returns (failedAt: Option<nat>)
      modifies this, store
      ensures messages == old(messages) + [reply] && input == old(input)
      ensures store.State() == Dispatch(old(store.State()), ReplyCalls(reply)).state
      ensures failedAt == Dispatch(old(store.State()), ReplyCalls(reply)).failedAt
    {
      messages := messages + [reply];
      failedAt := None;
      if reply.toolCalls.None? {
        return;
      }
      var calls := reply.toolCalls.value;
      ghost var s0 := store.State();
      var i := 0;
      while i < |calls|
        invariant 0 <= i <= |calls|
        invariant AllParsed(calls[..i])
        invariant store.State() == ApplyCalls(s0, calls[..i])
        invariant messages == old(messages) + [reply] && input == old(input)
        invariant failedAt == None
      {
        var call := calls[i];
        assert calls[..i + 1] == calls[..i] + [call];
        match call.arguments {
          case None =>
            DispatchStopsAtParseFailure(s0, calls, i, []);
            return Some(i);
          case Some(args) =>
            if call.name == "filterData" {
              var cleaned := DeleteUndefinedKeys(args.filters);
              store.SetFilter(cleaned);
            } else if call.name == "changeView" {
              store.SetViewMode(Read(StringEntry(args.mode)));
            } else if call.name == "clearFilters" {
              store.ClearFilters();
            }
        }
        i := i + 1;
      }
      assert calls[..i] == calls;
    }
  }
}
