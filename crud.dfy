/** The decision layer of the proxy's endpoints. Each handler is a function of
    its inputs and of the response the data service gives to the request the
    handler forwards (that response is ignored when nothing is forwarded). */
module Crud {
  import opened Wrappers
  import opened Json
  import opened Users
  import opened Query
  import opened Upstream

  datatype Verb = Get | Post | Put | Delete

  /** `Collection` is the configured base URL, `Item(id)` is the base URL followed by `/id`. */
  datatype Target = Collection | Item(id: string)

  /** An outbound call before URL encoding and JSON serialisation. */
  datatype Request = Request(verb: Verb, target: Target, query: seq<Param>, payload: Option<map<string, Value>>)

  /** Either the handler answers without calling the data service, or it makes
      exactly one call and answers from that call's response. */
  datatype Outcome = Rejected(reply: Reply) | Forwarded(request: Request, reply: Reply)

  const InvalidJson: string := "Invalid JSON body"
  const MissingRequired: string := "Fields 'email' and 'username' are required"
  const NothingToUpdate: string := "No updatable fields provided"

  /** What a request body turns into: not JSON, a TypeError inside
      `pick_user_fields`, or the filtered payload. */
  datatype Intake = InvalidBody | FilterFailed | Payload(fields: map<string, Value>)

  /** `pick_user_fields(request.get_json(force=True) or {})`; `None` is a body that does not parse. */
  function ReadBody(body: Option<Value>): (r: Intake)
    ensures body.None? <==> r.InvalidBody?
    ensures body.Some? && body.value.Object? ==> r == Payload(UserFields(body.value.fields))
    ensures body.Some? && !Truthy(body.value) ==> r == Payload(map[])
    ensures body.Some? && Truthy(body.value) && !body.value.Object? ==>
              if BodyFields(body.value).None? then r.FilterFailed? else r == Payload(map[])
    ensures r.Payload? ==> r.fields.Keys <= Allowed
  {
    match body
    case None => InvalidBody
    case Some(v) =>
      match BodyFields(OrEmpty(v))
      case None => FilterFailed
      case Some(fields) => Payload(fields)
  }

  /** `GET /users`: always forwarded, with the list parameters. */
  function ListUsers(args: ListArgs, resp: Response): (o: Outcome)
    ensures o.Forwarded?
    ensures o.request == Request(Get, Collection, ListQuery(args), None)
    ensures o.reply == Relay(resp, 200)
  {
    Forwarded(Request(Get, Collection, ListQuery(args), None), Relay(resp, 200))
  }

  /** `GET /users/<id>`. */
  function GetUser(id: string, resp: Response): (o: Outcome)
    ensures o.Forwarded?
    ensures o.request == Request(Get, Item(id), [], None)
    ensures o.reply == Relay(resp, 200)
  {
    Forwarded(Request(Get, Item(id), [], None), Relay(resp, 200))
  }

  /** `POST /users`: forwarded only when the filtered payload has both an email
      and a username; a created record is answered with 201. */
  function CreateUser(body: Option<Value>, resp: Response): (o: Outcome)
    ensures body.None? ==> o == Rejected(Aborted(400, InvalidJson))
    ensures ReadBody(body).FilterFailed? ==> o == Rejected(ServerError)
    ensures ReadBody(body).Payload? ==>
              (o.Forwarded? <==> "email" in ReadBody(body).fields && "username" in ReadBody(body).fields)
    ensures ReadBody(body).Payload? && o.Rejected? ==> o.reply == Aborted(400, MissingRequired)
    ensures o.Forwarded? ==> o.request == Request(Post, Collection, [], Some(ReadBody(body).fields))
    ensures o.Forwarded? ==> o.reply == Relay(resp, 201)
    ensures o.Forwarded? ==> "email" in o.request.payload.value && "username" in o.request.payload.value
    ensures o.Forwarded? ==> o.request.payload.value.Keys <= Allowed
  {
    match ReadBody(body)
    case InvalidBody => Rejected(Aborted(400, InvalidJson))
    case FilterFailed => Rejected(ServerError)
    case Payload(payload) =>
      if "email" !in payload || "username" !in payload then Rejected(Aborted(400, MissingRequired))
      else Forwarded(Request(Post, Collection, [], Some(payload)), Relay(resp, 201))
  }

  /** `PUT` and `PATCH /users/<id>` (one handler): forwarded only when some
      allowed field survives filtering; an updated record is answered with 200. */
  function UpdateUser(id: string, body: Option<Value>, resp: Response): (o: Outcome)
    ensures body.None? ==> o == Rejected(Aborted(400, InvalidJson))
    ensures ReadBody(body).FilterFailed? ==> o == Rejected(ServerError)
    ensures ReadBody(body).Payload? ==> (o.Forwarded? <==> ReadBody(body).fields != map[])
    ensures ReadBody(body).Payload? && o.Rejected? ==> o.reply == Aborted(400, NothingToUpdate)
    ensures o.Forwarded? ==> o.request == Request(Put, Item(id), [], Some(ReadBody(body).fields))
    ensures o.Forwarded? ==> o.reply == Relay(resp, 200)
    ensures o.Forwarded? ==> o.request.payload.value != map[] && o.request.payload.value.Keys <= Allowed
  {
    match ReadBody(body)
    case InvalidBody => Rejected(Aborted(400, InvalidJson))
    case FilterFailed => Rejected(ServerError)
    case Payload(payload) =>
      if payload == map[] then Rejected(Aborted(400, NothingToUpdate))
      else Forwarded(Request(Put, Item(id), [], Some(payload)), Relay(resp, 200))
  }

  /** The confirmation `delete_user` answers with in place of the upstream body. */
  function Deleted(id: string): Value {
    Object(map["deleted" := Bool(true), "objectId" := Str(id)])
  }

  /** `DELETE /users/<id>`: only 200 and 204 count as success, whatever `resp.ok` says. */
  function DeleteUser(id: string, resp: Response): (o: Outcome)
    ensures o.Forwarded? && o.request == Request(Delete, Item(id), [], None)
    ensures o.reply.Code() == 200 <==> resp.status == 200 || resp.status == 204
    ensures resp.status == 200 || resp.status == 204 ==> o.reply == JsonReply(200, Deleted(id))
    ensures resp.status != 200 && resp.status != 204 ==> o.reply == BeError(resp)
    ensures o.reply.JsonReply?
    ensures EnvelopeOf(o.reply.body).Some? <==> resp.status != 200 && resp.status != 204
  {
    var reply := if resp.status == 200 || resp.status == 204 then JsonReply(200, Deleted(id)) else BeError(resp);
    assert EnvelopeOf(Deleted(id)) == None by {
      assert "error" !in Deleted(id).fields;
    }
    Forwarded(Request(Delete, Item(id), [], None), reply)
  }

  /** `GET /users/by-email/<email>`. */
  function FindByEmail(email: string, resp: Response): (o: Outcome)
    ensures o.Forwarded?
    ensures o.request == Request(Get, Collection, FinderQuery("email", email), None)
    ensures Lookup(o.request.query, "where") == Some(Text("email='" + email + "'"))
    ensures o.reply == Relay(resp, 200)
  {
    assert WhereEquals("email", email) == "email='" + email + "'";
    Forwarded(Request(Get, Collection, FinderQuery("email", email), None), Relay(resp, 200))
  }

  /** `GET /users/by-username/<username>`. */
  function FindByUsername(username: string, resp: Response): (o: Outcome)
    ensures o.Forwarded?
    ensures o.request == Request(Get, Collection, FinderQuery("username", username), None)
    ensures Lookup(o.request.query, "where") == Some(Text("username='" + username + "'"))
    ensures o.reply == Relay(resp, 200)
  {
    assert WhereEquals("username", username) == "username='" + username + "'";
    Forwarded(Request(Get, Collection, FinderQuery("username", username), None), Relay(resp, 200))
  }

  /** For an object body, create is forwarded exactly when the body itself has
      both `email` and `username`, and the payload is the body restricted to the
      allowed keys. */
  lemma CreateObjectBody(m: map<string, Value>, resp: Response)
    ensures CreateUser(Some(Object(m)), resp).Forwarded? <==> "email" in m && "username" in m
    ensures CreateUser(Some(Object(m)), resp).Forwarded? ==>
              CreateUser(Some(Object(m)), resp).request.payload == Some(UserFields(m))
  {
    assert "email" in Allowed && "username" in Allowed;
  }

  /** For an object body, update is forwarded exactly when the body has at least
      one allowed key. */
  lemma UpdateObjectBody(id: string, m: map<string, Value>, resp: Response)
    ensures UpdateUser(id, Some(Object(m)), resp).Forwarded? <==> exists k :: k in m && k in Allowed
  {
    if k :| k in m && k in Allowed {
      assert k in UserFields(m);
    }
  }

  /** A null or empty body is filtered to nothing: create asks for the required
      fields and update has nothing to send. */
  lemma FalsyBodyRejected(id: string, v: Value, resp: Response)
    requires !Truthy(v)
    ensures CreateUser(Some(v), resp) == Rejected(Aborted(400, MissingRequired))
    ensures UpdateUser(id, Some(v), resp) == Rejected(Aborted(400, NothingToUpdate))
  {
  }

  /** Posting `{"email": "a@x.com", "username": "a", "extra": "drop-me"}` forwards
      only the two user fields, and the service's 201 body comes back unchanged. */
  lemma CreateDropsExtraField(created: Value)
    ensures
      var body := Object(map["email" := Str("a@x.com"), "username" := Str("a"), "extra" := Str("drop-me")]);
      var o := CreateUser(Some(body), Response(201, Some(created), ""));
      && o.Forwarded?
      && o.request.payload == Some(map["email" := Str("a@x.com"), "username" := Str("a")])
      && o.reply == JsonReply(201, created)
  {
    var m := map["email" := Str("a@x.com"), "username" := Str("a"), "extra" := Str("drop-me")];
    assert UserFields(m) == map["email" := Str("a@x.com"), "username" := Str("a")];
  }
}
