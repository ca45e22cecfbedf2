/**
 * The bus-table pipeline of `update_text_3` (aggregated_live_dash.py) and of
 * live_bus_times.py: find the braced span in the fetched text, parse it,
 * and build the table. `json.loads` is a parameter: a total function that
 * yields the parsed feed, or `None` where it raises `JSONDecodeError`.
 *
 * Neither file produces a table on failure. When `re.search` finds no
 * match, `.group(0)` is called on `None` and raises. When parsing fails, the
 * error is printed and execution goes on with `data` never bound, so the
 * loop over `data['services']` raises.
 */
module BusPipeline {
  import opened Wrappers
  import opened BraceSpan
  import opened BusRows

  datatype BusError =
    | NoJsonObject    // no match: `json_match.group(0)` on `None`
    | DataUnbound     // parse failed: `data` is unbound when the loop reads it

  /** The table built from fetched `text`, keeping `k` departures per service. */
  function BusTable(text: string, parse: string -> Option<Feed>, k: nat): (r: Result<seq<Row>, BusError>)
    ensures r == Failure(NoJsonObject) <==> MatchedText(text).None?
    ensures r == Failure(DataUnbound) <==>
      MatchedText(text).Some? && parse(MatchedText(text).value).None?
    ensures r.Success? ==>
      && MatchedText(text).Some?
      && parse(MatchedText(text).value).Some?
      && r.value == Table(parse(MatchedText(text).value).value.services, k)
      && |r.value| == TotalRows(parse(MatchedText(text).value).value.services, k)
      && forall p | 0 <= p < |r.value| ::
           RowFrom(parse(MatchedText(text).value).value.services, k, r.value[p])
  {
    match MatchedText(text)
    case None => Failure(NoJsonObject)
    case Some(jsonData) =>
      // `if json_data:` always holds: a match is at least two characters long
      assert jsonData != [];
      match parse(jsonData)
      case None => Failure(DataUnbound)
      case Some(data) =>
        RowCount(data.services, k);
        var rows := Table(data.services, k);
        assert forall p | 0 <= p < |rows| :: RowFrom(data.services, k, rows[p]) by {
          forall p | 0 <= p < |rows|
            ensures RowFrom(data.services, k, rows[p])
          {
            RowsComeFromFeed(data.services, k, p);
          }
        }
        Success(rows)
  }

  /** `update_text_3` of aggregated_live_dash.py: three departures per service. */
  function DashboardBusTable(text: string, parse: string -> Option<Feed>): Result<seq<Row>, BusError> {
    BusTable(text, parse, DashboardTake)
  }

  /** live_bus_times.py: two departures per service. */
  function ScriptBusTable(text: string, parse: string -> Option<Feed>): Result<seq<Row>, BusError> {
    BusTable(text, parse, ScriptTake)
  }

  /** The two files fail on exactly the same texts and parsers, with the same error. */
  lemma SameFailures(text: string, parse: string -> Option<Feed>)
    ensures ScriptBusTable(text, parse).Failure? <==> DashboardBusTable(text, parse).Failure?
    ensures ScriptBusTable(text, parse).Failure? ==>
      ScriptBusTable(text, parse).error == DashboardBusTable(text, parse).error
  {
  }

  const ScenarioJson: string := "{" + ScenarioMembers + "}"
  const ScenarioMembers: string :=
    "\"services\":[{\"service_name\":\"X\",\"departures\":[{\"minutes\":5,\"departure_time\":\"10:05\"},{\"minutes\":15,\"departure_time\":\"10:15\"}]}]"

  /** A page with the feed embedded in surrounding text yields the single
      service's two departures, in order. */
  lemma EmbeddedFeedScenario(parse: string -> Option<Feed>)
    requires parse(ScenarioJson)
      == Some(Feed([Service("X", [Departure(5, "10:05"), Departure(15, "10:15")])]))
    ensures ScriptBusTable("...garbage..." + ScenarioJson + "...", parse)
      == Success([Row("X", 5, "10:05"), Row("X", 15, "10:15")])
  {
    var text := "...garbage..." + ScenarioJson + "...";
    assert ScenarioJson[0] == '{' && ScenarioJson[|ScenarioJson| - 1] == '}';
    SplitIsUnique(text, Split("...garbage...", ScenarioJson, "..."));
    SingleServiceExample();
  }

  /** A page without braces yields no table at all. */
  lemma NoBracesScenario(parse: string -> Option<Feed>)
    ensures BusTable("<html>no departures</html>", parse, ScriptTake) == Failure(NoJsonObject)
  {
    var t := "<html>no departures</html>";
    assert forall i | 0 <= i < |t| :: t[i] != '{';
  }
}
