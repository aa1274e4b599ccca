/** What the adapter emits and how it decodes the runner's output: the
    events of the three emitters and the error notifications, the decision
    a discovery completion makes, and the events one run-output line gives. */
module Events {
  import opened Results
  import opened Text
  import opened Invocation

  /** A value `JSON.parse` returns. Numbers keep their literal text. */
  datatype Json =
    | JNull
    | JBool(b: bool)
    | JNumber(literal: string)
    | JString(s: string)
    | JArray(items: seq<Json>)
    | JObject(fields: map<string, Json>)

  /** `JSON.parse`, left uninterpreted: a value, or the text of the
      exception it throws. */
  type Parser = string -> Result<Json>

  /** `'children' in v`: None where the `in` operator throws a TypeError,
      which it does on null and on every primitive value. Arrays have no
      "children" key. */
  function ChildrenField(v: Json): (r: Option<bool>)
    ensures r.None? <==> !(v.JObject? || v.JArray?)
    ensures r == Some(true) <==> v.JObject? && "children" in v.fields
  {
    match v
    case JObject(fields) => Some("children" in fields)
    case JArray(_) => Some(false)
    case _ => None
  }

  const ErrorPrefix := "Fang lua test adapter error:\n"
  const NoTestsFound := "No tests found"
  const SuiteParseFailure := "Failed to parse test suit information."
  const RunParseFailure := "Failed to parse test run information. "
  const NotInitialized := "Fang not initialized!"
  const SpawnFailure := "Failed to start subprocess. "
  const RootScope := ["root"]

  /** The text of the user-facing error message `show_error` raises. */
  function ErrorText(message: string): (r: string)
    ensures |r| == |ErrorPrefix| + |message|
    ensures r[..|ErrorPrefix|] == ErrorPrefix && r[|ErrorPrefix|..] == message
  {
    ErrorPrefix + message
  }

  datatype LoadResult = Loaded(suite: Json) | LoadFailed(errorMessage: string)

  /** `retire({})` retires every test; `retire({tests})` the given ones. */
  datatype RetireScope = AllTests | Tests(ids: seq<string>)

  /** One entry of the adapter's log: an event fired on one of its three
      emitters, an error notification, or a process spawned or killed. */
  datatype Event =
    | LoadStarted
    | LoadFinished(result: LoadResult)
    | RunStarted(tests: seq<string>)
    | RunEvent(payload: Json)
    | RunFinished
    | Retire(scope: RetireScope)
    | Notify(message: string)
    | Spawn(process: Process)
    | Kill(process: Process)

  /** The events a discovery completion emits, given the completion's error
      text and the accumulated stdout. */
  function DiscoveryOutcome(err: string, data: string, parse: Parser): (r: seq<Event>)
    // exactly one `finished`, and it comes last, after at most one notification
    ensures 1 <= |r| <= 2 && r[|r| - 1].LoadFinished?
    ensures |r| == 2 ==>
              r[0] == Notify(ErrorText(SuiteParseFailure)) && r[1] == LoadFinished(LoadFailed(SuiteParseFailure))
    // a non-empty error text is reported as it is
    ensures err != "" ==> r == [LoadFinished(LoadFailed(err))]
    // empty output is "No tests found"
    ensures err == "" && data == "" ==> r == [LoadFinished(LoadFailed(NoTestsFound))]
    // the suite is delivered exactly when it parses to a value with children
    ensures r[|r| - 1].result.Loaded? <==>
              err == "" && data != "" && parse(data).Ok? && ChildrenField(parse(data).value) == Some(true)
    ensures r[|r| - 1].result.Loaded? ==> r[|r| - 1].result.suite == parse(data).value
    // the notification is raised exactly when decoding the suite throws
    ensures |r| == 2 <==>
              err == "" && data != "" && (parse(data).Err? || ChildrenField(parse(data).value).None?)
    // a value that parses but has no children is "No tests found"
    ensures err == "" && data != "" && parse(data).Ok? && ChildrenField(parse(data).value) == Some(false)
            ==> r == [LoadFinished(LoadFailed(NoTestsFound))]
  {
    var parseFailure := [Notify(ErrorText(SuiteParseFailure)), LoadFinished(LoadFailed(SuiteParseFailure))];
    if err != "" then [LoadFinished(LoadFailed(err))]
    else if data != "" then
      match parse(data)
      case Ok(suite) =>
        (match ChildrenField(suite)
         case Some(true) => [LoadFinished(Loaded(suite))]
         case Some(false) => [LoadFinished(LoadFailed(NoTestsFound))]
         case None => parseFailure)
      case Err(_) => parseFailure
    else [LoadFinished(LoadFailed(NoTestsFound))]
  }

  /** The index of the first piece that does not parse, or the number of
      pieces when all of them parse. */
  function FirstParseFailure(pieces: seq<string>, parse: Parser): (k: nat)
    ensures k <= |pieces|
    ensures forall i :: 0 <= i < k ==> parse(pieces[i]).Ok?
    ensures k < |pieces| ==> parse(pieces[k]).Err?
  {
    if pieces == [] || parse(pieces[0]).Err? then 0
    else 1 + FirstParseFailure(pieces[1..], parse)
  }

  /** The first failure is the only index with nothing but parsed pieces
      before it and a failure, or the end, at it. */
  lemma {:induction false} FirstParseFailureUnique(pieces: seq<string>, parse: Parser, k: nat)
    requires k <= |pieces|
    requires forall i :: 0 <= i < k ==> parse(pieces[i]).Ok?
    requires k < |pieces| ==> parse(pieces[k]).Err?
    ensures k == FirstParseFailure(pieces, parse)
  {
    if k > 0 {
      FirstParseFailureUnique(pieces[1..], parse, k - 1);
    }
  }

  /** The events the pieces of one run-output line give: each piece's value
      in order, up to the first piece that does not parse; that piece raises
      one notification and the pieces after it are dropped. */
  function RunLineEvents(pieces: seq<string>, parse: Parser): (r: seq<Event>)
    ensures var k := FirstParseFailure(pieces, parse);
            |r| == (if k < |pieces| then k + 1 else k)
            && (forall i :: 0 <= i < k ==> r[i] == RunEvent(parse(pieces[i]).value))
            && (k < |pieces| ==> r[k] == Notify(ErrorText(RunParseFailure + parse(pieces[k]).error)))
  {
    if pieces == [] then []
    else
      match parse(pieces[0])
      case Ok(v) => [RunEvent(v)] + RunLineEvents(pieces[1..], parse)
      case Err(e) => [Notify(ErrorText(RunParseFailure + e))]
  }

  /** The values of pieces that all parse, forwarded in order. */
  function Forwarded(pieces: seq<string>, parse: Parser): (r: seq<Event>)
    requires forall i :: 0 <= i < |pieces| ==> parse(pieces[i]).Ok?
    ensures |r| == |pieces|
  {
    if pieces == [] then []
    else [RunEvent(parse(pieces[0]).value)] + Forwarded(pieces[1..], parse)
  }

  /** Forwarding one more piece appends its value. */
  lemma {:induction false} ForwardedSnoc(pieces: seq<string>, piece: string, parse: Parser)
    requires forall i :: 0 <= i < |pieces| ==> parse(pieces[i]).Ok?
    requires parse(piece).Ok?
    ensures Forwarded(pieces + [piece], parse) == Forwarded(pieces, parse) + [RunEvent(parse(piece).value)]
  {
    if pieces != [] {
      assert (pieces + [piece])[1..] == pieces[1..] + [piece];
      ForwardedSnoc(pieces[1..], piece, parse);
    }
  }

  /** A line's events are the values of the pieces before the first failure,
      then the notification for that failure if there is one. */
  lemma {:induction false} RunLineEventsAsForwarded(pieces: seq<string>, parse: Parser)
    ensures var k := FirstParseFailure(pieces, parse);
            RunLineEvents(pieces, parse)
            == Forwarded(pieces[..k], parse)
               + (if k < |pieces| then [Notify(ErrorText(RunParseFailure + parse(pieces[k]).error))] else [])
  {
    if pieces != [] && parse(pieces[0]).Ok? {
      var k := FirstParseFailure(pieces, parse);
      RunLineEventsAsForwarded(pieces[1..], parse);
      assert pieces[..k][1..] == pieces[1..][..k - 1];
    }
  }

  /** A run-output line raises at most one notification, and only as its
      last event; all the others forward parsed values. */
  lemma {:induction false} RunLineNotifiesOnce(pieces: seq<string>, parse: Parser)
    ensures var r := RunLineEvents(pieces, parse);
            forall i :: 0 <= i < |r| ==> (r[i].Notify? <==> i == |r| - 1 && FirstParseFailure(pieces, parse) < |pieces|)
    ensures forall i :: 0 <= i < |RunLineEvents(pieces, parse)| ==> RunLineEvents(pieces, parse)[i].RunEvent? || RunLineEvents(pieces, parse)[i].Notify?
  {
    var r := RunLineEvents(pieces, parse);
    var k := FirstParseFailure(pieces, parse);
    forall i | 0 <= i < |r| ensures (r[i].Notify? <==> i == |r| - 1 && k < |pieces|) && (r[i].RunEvent? || r[i].Notify?) {
      if i < k {
        assert r[i] == RunEvent(parse(pieces[i]).value);
      } else {
        assert i == k && k < |pieces|;
      }
    }
  }

  /** The events that end a session of mode `m`: for discovery the outcome
      and then the retirement of the root scope; for a run, `finished`. */
  function CompletionEvents(m: Mode, err: string, data: string, parse: Parser): (r: seq<Event>)
    // a run ends with `finished` alone, whatever the error text
    ensures m == Execute ==> r == [RunFinished]
    // a discovery ends with one `finished`, then the root scope retired,
    // after at most one notification
    ensures m == Discover ==>
              2 <= |r| <= 3 && r[|r| - 2].LoadFinished? && r[|r| - 1] == Retire(Tests(RootScope))
              && (|r| == 3 ==> r[0].Notify?)
  {
    match m
    case Discover => DiscoveryOutcome(err, data, parse) + [Retire(Tests(RootScope))]
    case Execute => [RunFinished]
  }

  /** Without the runner's entry file a session ends at once: a discovery
      with "Fang not initialized!" and the root scope retired, a run with
      `finished`. */
  lemma NotInitializedCompletion(m: Mode, data: string, parse: Parser)
    ensures CompletionEvents(m, NotInitialized, data, parse)
            == if m == Discover then [LoadFinished(LoadFailed(NotInitialized)), Retire(Tests(RootScope))]
               else [RunFinished]
  {
  }
}
