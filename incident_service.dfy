/**
 * The incident service: the five calls on the `incident` table. Each call builds
 * its query and headers step by step, hands them to `fetch`, and turns the reply
 * into a value or a thrown error. The session token is attached only outside the
 * development build and only when the page exposes a truthy one.
 */
module IncidentService {
  import opened Wrappers
  import opened SearchParams
  import opened Http
  import opened Records

  /** A flat JSON object of strings: the create and update payloads. */
  type Json = map<string, string>

  const TableName := "incident"
  const ListFields := "sys_id,number,short_description,description,incident_state,priority,impact,urgency,assigned_to,caller_id,assignment_group,sys_created_on,sys_updated_on,opened_by,category,subcategory"
  const ListOrder := "ORDERBYDESCsys_updated_on"
  const FixedListKeys: set<string> := {"sysparm_display_value", "sysparm_limit", "sysparm_fields", "sysparm_order"}

  /** The path of one incident. */
  function RecordPath(sysId: string): string
  {
    TablePath + TableName + "/" + sysId
  }

  /**
   * The token rule shared by all five calls: `headers` is `base` with
   * `X-UserToken` added exactly when the build is not the development one and the
   * page's token is truthy, and then it carries that token.
   */
  ghost predicate TokenRule(headers: Headers, base: Headers, host: Host)
  {
    && (forall k :: k in base ==> k in headers && headers[k] == base[k])
    && (forall k :: k in headers ==> k in base || k == "X-UserToken")
    && ("X-UserToken" in headers <==> !host.isDev && TokenTruthy(host.gck))
    && ("X-UserToken" in headers ==> headers["X-UserToken"] == host.gck.value)
  }

  const ReadHeaders: Headers := map["Accept" := "application/json"]
  const WriteHeaders: Headers := map["Content-Type" := "application/json", "Accept" := "application/json"]

  /**
   * `list(filters)`: every caller filter is sent, except that the four fixed
   * parameters always hold, each exactly once, whatever the caller passed for them.
   * Leaving the fixed names aside, the query is the caller's, pair for pair and in order.
   */
  method ListRequest(filters: Params, host: Host) returns (r: Request<Json>)
    ensures r.verb == Get && r.path == TablePath + TableName && r.body == None
    ensures GetParam(r.query, "sysparm_display_value") == Some("all")
    ensures GetParam(r.query, "sysparm_limit") == Some("100")
    ensures GetParam(r.query, "sysparm_fields") == Some(ListFields)
    ensures GetParam(r.query, "sysparm_order") == Some(ListOrder)
    ensures forall k :: k in FixedListKeys ==> CountParam(r.query, k) == 1
    ensures forall k :: k !in FixedListKeys ==> GetParam(r.query, k) == GetParam(filters, k)
    ensures forall k :: k !in FixedListKeys ==> CountParam(r.query, k) == CountParam(filters, k)
    ensures Without(r.query, FixedListKeys) == Without(filters, FixedListKeys)
    ensures TokenRule(r.headers, ReadHeaders, host)
  {
    var p0 := filters;
    var p1 := SetParam(p0, "sysparm_display_value", "all");
    var p2 := SetParam(p1, "sysparm_limit", "100");
    var p3 := SetParam(p2, "sysparm_fields", ListFields);
    var p4 := SetParam(p3, "sysparm_order", ListOrder);

    SetThenGet(p0, "sysparm_display_value", "all");
    SetThenGet(p1, "sysparm_limit", "100");
    SetThenGet(p2, "sysparm_fields", ListFields);
    SetThenGet(p3, "sysparm_order", ListOrder);
    SetLeavesOthers(p1, "sysparm_limit", "100", "sysparm_display_value");
    SetLeavesOthers(p2, "sysparm_fields", ListFields, "sysparm_display_value");
    SetLeavesOthers(p3, "sysparm_order", ListOrder, "sysparm_display_value");
    SetLeavesOthers(p2, "sysparm_fields", ListFields, "sysparm_limit");
    SetLeavesOthers(p3, "sysparm_order", ListOrder, "sysparm_limit");
    SetLeavesOthers(p3, "sysparm_order", ListOrder, "sysparm_fields");
    forall k | k !in FixedListKeys
      ensures GetParam(p4, k) == GetParam(filters, k) && CountParam(p4, k) == CountParam(filters, k)
    {
      SetLeavesOthers(p0, "sysparm_display_value", "all", k);
      SetLeavesOthers(p1, "sysparm_limit", "100", k);
      SetLeavesOthers(p2, "sysparm_fields", ListFields, k);
      SetLeavesOthers(p3, "sysparm_order", ListOrder, k);
    }
    SetKeepsOthers(p0, FixedListKeys, "sysparm_display_value", "all");
    SetKeepsOthers(p1, FixedListKeys, "sysparm_limit", "100");
    SetKeepsOthers(p2, FixedListKeys, "sysparm_fields", ListFields);
    SetKeepsOthers(p3, FixedListKeys, "sysparm_order", ListOrder);

    var headers := ReadHeaders;
    if !host.isDev && TokenTruthy(host.gck) {
      headers := headers["X-UserToken" := host.gck.value];
    }
    r := Request(Get, TablePath + TableName, p4, headers, None);
  }

  /** `create(data)`: a POST of `data` unchanged to the table. */
  method CreateRequest(data: Json, host: Host) returns (r: Request<Json>)
    ensures r.verb == Post && r.path == TablePath + TableName && r.query == [] && r.body == Some(data)
    ensures TokenRule(r.headers, WriteHeaders, host)
  {
    var headers := WriteHeaders;
    if !host.isDev && TokenTruthy(host.gck) {
      headers := headers["X-UserToken" := host.gck.value];
    }
    r := Request(Post, TablePath + TableName, [], headers, Some(data));
  }

  /** `update(sysId, data)`: a PATCH of `data` unchanged to the incident's own path. */
  method UpdateRequest(sysId: string, data: Json, host: Host) returns (r: Request<Json>)
    ensures r.verb == Patch && r.path == RecordPath(sysId) && r.query == [] && r.body == Some(data)
    ensures TokenRule(r.headers, WriteHeaders, host)
  {
    var headers := WriteHeaders;
    if !host.isDev && TokenTruthy(host.gck) {
      headers := headers["X-UserToken" := host.gck.value];
    }
    r := Request(Patch, RecordPath(sysId), [], headers, Some(data));
  }

  /** `delete(sysId)`: a DELETE on the incident's own path, with no body. */
  method DeleteRequest(sysId: string, host: Host) returns (r: Request<Json>)
    ensures r.verb == Delete && r.path == RecordPath(sysId) && r.query == [] && r.body == None
    ensures TokenRule(r.headers, ReadHeaders, host)
  {
    var headers := ReadHeaders;
    if !host.isDev && TokenTruthy(host.gck) {
      headers := headers["X-UserToken" := host.gck.value];
    }
    r := Request(Delete, RecordPath(sysId), [], headers, None);
  }

  /** `get(sysId)`: a GET on the incident's own path asking for display values and nothing else. */
  method GetRequest(sysId: string, host: Host) returns (r: Request<Json>)
    ensures r.verb == Get && r.path == RecordPath(sysId) && r.body == None
    ensures GetParam(r.query, "sysparm_display_value") == Some("all")
    ensures forall k :: k != "sysparm_display_value" ==> GetParam(r.query, k) == None
    ensures TokenRule(r.headers, ReadHeaders, host)
  {
    var searchParams: Params := [];
    searchParams := SetParam(searchParams, "sysparm_display_value", "all");
    var headers := ReadHeaders;
    if !host.isDev && TokenTruthy(host.gck) {
      headers := headers["X-UserToken" := host.gck.value];
    }
    r := Request(Get, RecordPath(sysId), searchParams, headers, None);
  }

  /** What `list` returns or throws: the `result` list, or `[]` when the body has none. */
  function ListOutcome(reply: Reply<seq<Incident>>): (o: Outcome<seq<Incident>>)
    ensures o.Ok? <==> reply.Response? && reply.ok
    ensures reply.NetworkError? ==> o == Failed(reply.reason)
    ensures o.Ok? ==> o.value == ResultOrEmpty(reply.body)
    ensures reply.Response? && !reply.ok ==> o.message == BodyMessageOr(reply.body, "Failed to fetch incidents")
  {
    Settle(reply, (b: Body<seq<Incident>>) => BodyMessageOr(b, "Failed to fetch incidents"), ResultOrEmpty)
  }

  /** What `create` returns or throws: the whole parsed body. */
  function CreateOutcome<R>(reply: Reply<R>): (o: Outcome<Body<R>>)
    ensures o.Ok? <==> reply.Response? && reply.ok
    ensures reply.NetworkError? ==> o == Failed(reply.reason)
    ensures o.Ok? ==> o.value == reply.body
    ensures reply.Response? && !reply.ok ==> o.message == BodyMessageOr(reply.body, "Failed to create incident")
  {
    Settle(reply, (b: Body<R>) => BodyMessageOr(b, "Failed to create incident"), (b: Body<R>) => b)
  }

  /** What `update` returns or throws: the whole parsed body. */
  function UpdateOutcome<R>(reply: Reply<R>): (o: Outcome<Body<R>>)
    ensures o.Ok? <==> reply.Response? && reply.ok
    ensures reply.NetworkError? ==> o == Failed(reply.reason)
    ensures o.Ok? ==> o.value == reply.body
    ensures reply.Response? && !reply.ok ==> o.message == BodyMessageOr(reply.body, "Failed to update incident")
  {
    Settle(reply, (b: Body<R>) => BodyMessageOr(b, "Failed to update incident"), (b: Body<R>) => b)
  }

  /** What `delete` returns or throws: `true` on success. */
  function DeleteOutcome<R>(reply: Reply<R>): (o: Outcome<bool>)
    ensures o.Ok? <==> reply.Response? && reply.ok
    ensures reply.NetworkError? ==> o == Failed(reply.reason)
    ensures o.Ok? ==> o.value
    ensures reply.Response? && !reply.ok ==> o.message == BodyMessageOr(reply.body, "Failed to delete incident")
  {
    Settle(reply, (b: Body<R>) => BodyMessageOr(b, "Failed to delete incident"), (b: Body<R>) => true)
  }

  /** What `get` returns or throws: the body's `result`, which may be absent. */
  function GetOutcome(reply: Reply<Incident>): (o: Outcome<Option<Incident>>)
    ensures o.Ok? <==> reply.Response? && reply.ok
    ensures reply.NetworkError? ==> o == Failed(reply.reason)
    ensures o.Ok? ==> o.value == reply.body.result
    ensures reply.Response? && !reply.ok ==> o.message == BodyMessageOr(reply.body, "Failed to fetch incident")
  {
    Settle(reply, (b: Body<Incident>) => BodyMessageOr(b, "Failed to fetch incident"), (b: Body<Incident>) => b.result)
  }
}
