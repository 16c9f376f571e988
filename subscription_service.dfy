/**
 * The subscription service: creating a notification subscription, and the two
 * lookups behind the pickers. Unlike the incident service it always sends
 * `X-UserToken`, falling back to the empty string, whatever the build mode.
 */
module SubscriptionService {
  import opened Wrappers
  import opened Fields
  import opened SearchParams
  import opened Http
  import opened Records

  const TableName := "sys_noti_subscription"
  const UserTable := "sys_user"
  const NotificationTable := "sysevent_email_action"
  const UserFields := "sys_id,name,email,user_name"
  const NotificationFields := "sys_id,name,description,subscribable"
  const SubscribableOnly := "subscribable=true"

  /** The body of a create call: the two picked ids as held by the page, and the channel as `device`. */
  datatype Payload = Payload(user: Field, notification: Field, device: string)

  /** The encoded query matching a user by name or by user name. */
  function UserQuery(q: string): string
  {
    "nameLIKE" + q + "^ORuser_nameLIKE" + q
  }

  /** `create(data)`: a POST of `data` unchanged, with the token or `''`. */
  method CreateRequest(data: Payload, host: Host) returns (r: Request<Payload>)
    ensures r.verb == Post && r.path == TablePath + TableName && r.query == [] && r.body == Some(data)
    ensures r.headers.Keys == {"Content-Type", "Accept", "X-UserToken"}
    ensures r.headers["X-UserToken"] == TokenOrEmpty(host.gck)
  {
    r := Request(Post, TablePath + TableName, [],
      map["Content-Type" := "application/json", "Accept" := "application/json", "X-UserToken" := TokenOrEmpty(host.gck)],
      Some(data));
  }

  /**
   * `getUsers(query)`: display values, at most 20 users, four fields, and a name
   * search only when the query is not empty.
   */
  method UsersRequest(query: string, host: Host) returns (r: Request<Payload>)
    ensures r.verb == Get && r.path == TablePath + UserTable && r.body == None
    ensures GetParam(r.query, "sysparm_display_value") == Some("all")
    ensures GetParam(r.query, "sysparm_limit") == Some("20")
    ensures GetParam(r.query, "sysparm_fields") == Some(UserFields)
    ensures query == "" ==> GetParam(r.query, "sysparm_query") == None
    ensures query != "" ==> GetParam(r.query, "sysparm_query") == Some(UserQuery(query))
    ensures r.headers.Keys == {"Accept", "X-UserToken"} && r.headers["X-UserToken"] == TokenOrEmpty(host.gck)
  {
    var p0: Params := [];
    var p1 := SetParam(p0, "sysparm_display_value", "all");
    var p2 := SetParam(p1, "sysparm_limit", "20");
    var p3 := SetParam(p2, "sysparm_fields", UserFields);
    SetThenGet(p0, "sysparm_display_value", "all");
    SetThenGet(p1, "sysparm_limit", "20");
    SetThenGet(p2, "sysparm_fields", UserFields);
    SetLeavesOthers(p1, "sysparm_limit", "20", "sysparm_display_value");
    SetLeavesOthers(p2, "sysparm_fields", UserFields, "sysparm_display_value");
    SetLeavesOthers(p2, "sysparm_fields", UserFields, "sysparm_limit");
    SetLeavesOthers(p1, "sysparm_limit", "20", "sysparm_query");
    SetLeavesOthers(p2, "sysparm_fields", UserFields, "sysparm_query");
    var p4 := p3;
    if query != "" {
      p4 := SetParam(p3, "sysparm_query", UserQuery(query));
      SetThenGet(p3, "sysparm_query", UserQuery(query));
      SetLeavesOthers(p3, "sysparm_query", UserQuery(query), "sysparm_display_value");
      SetLeavesOthers(p3, "sysparm_query", UserQuery(query), "sysparm_limit");
      SetLeavesOthers(p3, "sysparm_query", UserQuery(query), "sysparm_fields");
    }
    r := Request(Get, TablePath + UserTable, p4,
      map["Accept" := "application/json", "X-UserToken" := TokenOrEmpty(host.gck)], None);
  }

  /**
   * `getNotifications(query)`: display values, at most 20 notifications, four
   * fields, and a query that always starts with the subscribable restriction and
   * adds a name search only when the query is not empty.
   */
  method NotificationsRequest(query: string, host: Host) returns (r: Request<Payload>)
    ensures r.verb == Get && r.path == TablePath + NotificationTable && r.body == None
    ensures GetParam(r.query, "sysparm_display_value") == Some("all")
    ensures GetParam(r.query, "sysparm_limit") == Some("20")
    ensures GetParam(r.query, "sysparm_fields") == Some(NotificationFields)
    ensures GetParam(r.query, "sysparm_query").Some?
    ensures var qs := GetParam(r.query, "sysparm_query").value;
      && |SubscribableOnly| <= |qs| && qs[..|SubscribableOnly|] == SubscribableOnly
      && (qs == SubscribableOnly <==> query == "")
      && (query != "" ==> qs == SubscribableOnly + "^nameLIKE" + query)
    ensures r.headers.Keys == {"Accept", "X-UserToken"} && r.headers["X-UserToken"] == TokenOrEmpty(host.gck)
  {
    var p0: Params := [];
    var p1 := SetParam(p0, "sysparm_display_value", "all");
    var p2 := SetParam(p1, "sysparm_limit", "20");
    var searchParams := SetParam(p2, "sysparm_fields", NotificationFields);
    SetThenGet(p0, "sysparm_display_value", "all");
    SetThenGet(p1, "sysparm_limit", "20");
    SetThenGet(p2, "sysparm_fields", NotificationFields);
    SetLeavesOthers(p1, "sysparm_limit", "20", "sysparm_display_value");
    SetLeavesOthers(p2, "sysparm_fields", NotificationFields, "sysparm_display_value");
    SetLeavesOthers(p2, "sysparm_fields", NotificationFields, "sysparm_limit");

    var queryString := SubscribableOnly;
    if query != "" {
      queryString := queryString + "^nameLIKE" + query;
      assert |queryString| > |SubscribableOnly|;
    }
    assert queryString[..|SubscribableOnly|] == SubscribableOnly;
    var before := searchParams;
    searchParams := SetParam(searchParams, "sysparm_query", queryString);
    SetThenGet(before, "sysparm_query", queryString);
    SetLeavesOthers(before, "sysparm_query", queryString, "sysparm_display_value");
    SetLeavesOthers(before, "sysparm_query", queryString, "sysparm_limit");
    SetLeavesOthers(before, "sysparm_query", queryString, "sysparm_fields");
    r := Request(Get, TablePath + NotificationTable, searchParams,
      map["Accept" := "application/json", "X-UserToken" := TokenOrEmpty(host.gck)], None);
  }

  /** What `create` returns or throws: the whole parsed body, or the store's message. */
  function CreateOutcome<R>(reply: Reply<R>): (o: Outcome<Body<R>>)
    ensures o.Ok? <==> reply.Response? && reply.ok
    ensures reply.NetworkError? ==> o == Failed(reply.reason)
    ensures o.Ok? ==> o.value == reply.body
    ensures reply.Response? && !reply.ok ==> o.message == BodyMessageOr(reply.body, "Failed to create subscription")
  {
    Settle(reply, (b: Body<R>) => BodyMessageOr(b, "Failed to create subscription"), (b: Body<R>) => b)
  }

  /** What `getUsers` returns or throws: `result` or `[]`; a failed response always gives the same message. */
  function UsersOutcome(reply: Reply<seq<User>>): (o: Outcome<seq<User>>)
    ensures o.Ok? <==> reply.Response? && reply.ok
    ensures reply.NetworkError? ==> o == Failed(reply.reason)
    ensures o.Ok? ==> o.value == ResultOrEmpty(reply.body)
    ensures reply.Response? && !reply.ok ==> o.message == "Failed to fetch users"
  {
    Settle(reply, (b: Body<seq<User>>) => "Failed to fetch users", ResultOrEmpty)
  }

  /** What `getNotifications` returns or throws: `result` or `[]`; a failed response always gives the same message. */
  function NotificationsOutcome(reply: Reply<seq<Notification>>): (o: Outcome<seq<Notification>>)
    ensures o.Ok? <==> reply.Response? && reply.ok
    ensures reply.NetworkError? ==> o == Failed(reply.reason)
    ensures o.Ok? ==> o.value == ResultOrEmpty(reply.body)
    ensures reply.Response? && !reply.ok ==> o.message == "Failed to fetch notifications"
  {
    Settle(reply, (b: Body<seq<Notification>>) => "Failed to fetch notifications", ResultOrEmpty)
  }
}
