/**
 * The tool registry of the diagnostics assistant
 * (backend/proof-of-concepts/tools.py): the lookup by assistant and tool
 * name, and the three tools. The two HTTP fetches are inputs (`Endpoints`):
 * the decoded body each endpoint returned, or `None` when the request or
 * its decoding raised.
 */
module Tools {
  import opened Common
  import opened Json

  datatype Tool = HealthPackages | TestDetails | BookAppointment

  const AssistantName := "yoda_diagnostics"

  /** `function_map` */
  const FunctionMap: map<string, map<string, Tool>> := map[
    AssistantName := map[
      "get_health_packages" := HealthPackages,
      "get_test_details" := TestDetails,
      "book_appointment" := BookAppointment
    ]
  ]

  /** The function names the assistant's tool configuration declares to the model. */
  const DeclaredFunctions: seq<string> := ["get_health_packages", "get_test_details", "book_appointment"]

  /** `get_tool`: `None` stands for the `KeyError` an unknown assistant or tool name raises. */
  function GetTool(assistant: string, name: string): (r: Option<Tool>)
    ensures r.Some? <==> assistant == AssistantName && name in DeclaredFunctions
    ensures r == Some(HealthPackages) <==> assistant == AssistantName && name == "get_health_packages"
    ensures r == Some(TestDetails) <==> assistant == AssistantName && name == "get_test_details"
    ensures r == Some(BookAppointment) <==> assistant == AssistantName && name == "book_appointment"
  {
    if assistant in FunctionMap && name in FunctionMap[assistant] then Some(FunctionMap[assistant][name]) else None
  }

  /** The registry holds exactly the declared functions, and nothing for any other assistant. */
  lemma RegistryMatchesDeclarations()
    ensures FunctionMap.Keys == {AssistantName}
    ensures FunctionMap[AssistantName].Keys == set n | n in DeclaredFunctions
    ensures |FunctionMap[AssistantName]| == |DeclaredFunctions| == 3
  {
    var names := FunctionMap[AssistantName].Keys;
    assert names == {"get_health_packages", "get_test_details", "book_appointment"};
  }

  /** What each endpoint answered. */
  datatype Endpoints = Endpoints(healthPackages: Option<Json>, testDetails: Option<Json>)

  /** The record with its `locations` key removed (`pop("locations", None)`); absent, it is left as it is. */
  function WithoutLocations(record: map<string, Json>): (r: map<string, Json>)
    ensures "locations" !in r
    ensures forall k :: k in record && k != "locations" ==> k in r && r[k] == record[k]
    ensures forall k :: k in r ==> k in record
  {
    record - {"locations"}
  }

  /**
   * The stripping loop: one record per input record, in order, each without
   * `locations`; `None` when some element is not an object (`pop` with two
   * arguments then raises).
   */
  function Stripped(items: seq<Json>): (r: Option<seq<Json>>)
    ensures r.Some? <==> forall k :: 0 <= k < |items| ==> items[k].JObj?
    ensures r.Some? ==> |r.value| == |items|
    ensures r.Some? ==> forall k :: 0 <= k < |items| ==> r.value[k] == JObj(WithoutLocations(items[k].fields))
  {
    if forall k :: 0 <= k < |items| ==> items[k].JObj? then
      Some(seq(|items|, k requires 0 <= k < |items| => JObj(WithoutLocations(items[k].fields))))
    else
      None
  }

  /** The loop of `get_health_packages` and `get_test_details`, appending one record at a time. */
  method StripLocations(items: seq<Json>) returns (r: Option<seq<Json>>)
    ensures r == Stripped(items)
  {
    var records: seq<Json> := [];
    var i := 0;
    while i < |items|
      invariant 0 <= i <= |items|
      invariant forall k :: 0 <= k < i ==> items[k].JObj?
      invariant |records| == i
      invariant forall k :: 0 <= k < i ==> records[k] == JObj(WithoutLocations(items[k].fields))
    {
      if !items[i].JObj? {
        assert Stripped(items).None?;
        return None;
      }
      records := records + [JObj(WithoutLocations(items[i].fields))];
      i := i + 1;
    }
    assert records == Stripped(items).value;
    r := Some(records);
  }

  /** `response[key]` on a decoded body: `None` when it is not an object or lacks the key. */
  function Field(v: Json, key: string): Option<Json>
  {
    if v.JObj? && key in v.fields then Some(v.fields[key]) else None
  }

  /** `get_health_packages`: the packages of `response["data"]`. */
  function HealthPackagesOf(body: Option<Json>): Option<seq<Json>>
  {
    if body.None? then None
    else match Field(body.value, "data")
      case None => None
      case Some(data) =>
        match Elements(data)
        case None => None
        case Some(items) => Stripped(items)
  }

  /** `get_test_details`: the tests of `response["data"]["docs"]`. */
  function TestDetailsOf(body: Option<Json>): Option<seq<Json>>
  {
    if body.None? then None
    else match Field(body.value, "data")
      case None => None
      case Some(data) =>
        match Field(data, "docs")
        case None => None
        case Some(docs) =>
          match Elements(docs)
          case None => None
          case Some(items) => Stripped(items)
  }

  const BookingConfirmation := "Booking successful"

  /**
   * `func(**args)`: the value the tool returns, or `None` when it raises.
   * The two fetching tools take no parameters, so any keyword argument makes
   * the call raise; `book_appointment` accepts any.
   */
  function Invoke(tool: Tool, args: map<string, Json>, web: Endpoints): Option<Json>
  {
    match tool
    case BookAppointment => Some(JStr(BookingConfirmation))
    case HealthPackages =>
      if |args| > 0 then None
      else (match HealthPackagesOf(web.healthPackages)
        case None => None
        case Some(records) => Some(JArr(records)))
    case TestDetails =>
      if |args| > 0 then None
      else match TestDetailsOf(web.testDetails)
        case None => None
        case Some(records) => Some(JArr(records))
  }

  /** `book_appointment` confirms whatever it is given. */
  lemma BookingAlwaysSucceeds(args: map<string, Json>, web: Endpoints)
    ensures Invoke(BookAppointment, args, web) == Some(JStr(BookingConfirmation))
  {
  }

  /**
   * The packages tool answers with the endpoint's records, one per package,
   * in order, each with `locations` removed and every other key kept.
   */
  lemma HealthPackagesStripped(web: Endpoints, body: map<string, Json>, items: seq<Json>)
    requires web.healthPackages == Some(JObj(body))
    requires "data" in body && body["data"] == JArr(items)
    requires forall k :: 0 <= k < |items| ==> items[k].JObj?
    ensures Invoke(HealthPackages, map[], web) ==
      Some(JArr(seq(|items|, k requires 0 <= k < |items| => JObj(WithoutLocations(items[k].fields)))))
  {
  }

  /** The tests tool does the same over `data.docs`. */
  lemma TestDetailsStripped(web: Endpoints, body: map<string, Json>, data: map<string, Json>, items: seq<Json>)
    requires web.testDetails == Some(JObj(body))
    requires "data" in body && body["data"] == JObj(data)
    requires "docs" in data && data["docs"] == JArr(items)
    requires forall k :: 0 <= k < |items| ==> items[k].JObj?
    ensures Invoke(TestDetails, map[], web) ==
      Some(JArr(seq(|items|, k requires 0 <= k < |items| => JObj(WithoutLocations(items[k].fields)))))
  {
  }
}
