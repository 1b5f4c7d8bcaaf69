# Users proxy for the Backendless data API — decision layer

The system is a small Flask service (`crud.py`) that exposes CRUD routes for a
`Users` table and forwards each request to the Backendless data API. This
project models the part of it that decides what to forward and what to answer:

- the allow-list of user fields (`pick_user_fields`) and how it behaves on any
  decoded JSON body, including non-objects;
- the validation of create and update bodies (`body or {}`, required fields,
  nothing to update);
- the outbound query parameters of the list endpoint and of the two exact-match
  finders, as an ordered list of key/value pairs before URL encoding;
- the answer built from the data service's response: the plain relay of a
  successful JSON body, the delete confirmation, and `be_error`'s error envelope.

Each handler is a function of its inputs and of the response the data service
gives to the one call the handler makes (`Crud.Outcome`: `Rejected(reply)` when
nothing is forwarded, `Forwarded(request, reply)` otherwise). The upstream
response is a value `(status, json, text)`: `json` is `None` exactly when
`resp.json()` would raise. `resp.ok` follows the requests library: it is false
exactly for the codes 400 to 599, which on the codes HTTP defines is "below 400"
(`Upstream.OkMeansBelow400`).

Files: `wrappers.dfy` (Option), `json.dfy` (JSON values and Python truthiness),
`users.dfy` (allow-list), `query.dfy` (query parameters and where clauses),
`upstream.dfy` (responses, replies, error envelope), `config.dfy` (default
headers), `crud.dfy` (the handlers).

The exact-match finders build `field='value'` without escaping. The model keeps
this as written, and `Query.WhereEqualsReadBack` states its consequence: the
clause reads back as the single equality `field = value` exactly when `value`
holds no quote. `Query.QuoteInjection` gives a value for which the email finder's
clause is no longer a single equality.

## Model

| member | source | states |
|---|---|---|
| `Users.PickUserFields` | crud.py:43-62 | the loop over the allowed set yields exactly the input's allowed keys, each with the input's value, and nothing else; it equals the reference restriction `UserFields` |
| `Users.UserFieldsIsRestriction` | crud.py:50-61 | a key is in the result iff it is in the input and in {email, First Name, Last Name, ID, password, username}, with the input's value |
| `Users.UserFieldsIdempotent` | crud.py:58-62 | filtering an already filtered map changes nothing |
| `Users.UserFieldsKeys` | crud.py:58-62 | the result's keys are a subset of the input's keys and of the allow-list |
| `Users.UserFieldsIgnoresOthers` | crud.py:50-61 | adding or changing a key outside the allow-list never changes what is forwarded |
| `Users.UserFieldsKeepsAllowed` | crud.py:58-62 | a map holding only allowed keys passes unchanged |
| `Users.BodyFields` | crud.py:43-62 | on an object body the result is the restriction; on null, booleans and numbers the filter raises; on a list or string it raises iff an allowed key is an element or a substring, and otherwise yields {} |
| `Json.OrEmpty` | crud.py:118 | `body or {}`: a truthy body is unchanged, a false body (null, false, 0, "", [], {}) becomes the empty object |
| `Crud.ReadBody` | crud.py:117-122 | a body that does not parse is reported as such; an object body becomes its restriction; a null or otherwise false body becomes the empty payload; a truthy non-object body fails in the filter when `BodyFields` raises and otherwise yields the empty payload; any payload holds only allowed keys |
| `Query.LookupEntries` | crud.py:83-90 | in a parameter list without repeated keys, every entry is what a lookup of its key finds, and an absent key is not found |
| `Query.ListQuery` | crud.py:78-90 | `pageSize` (default 50) and `offset` (default 0) always come first; `where` and `sortBy` are present iff supplied and non-empty, carrying the supplied strings unchanged; no other key and no repeated key |
| `Query.ListParams` | crud.py:83-90 | the in-place construction of `params` produces exactly `ListQuery` |
| `Query.ListQueryDefaults` | crud.py:78-90 | with no arguments exactly `pageSize=50`, `offset=0` is sent |
| `Query.FinderQuery` | crud.py:178-179 | exactly three distinct parameters: `where` is the clause `field='value'`, `pageSize` is 50 and `offset` is 0 |
| `Query.WhereEqualsReadBack` | crud.py:178 | the clause `field='value'` reads back as one equality with literal `value` iff `value` has no quote |
| `Query.QuoteInjection` | crud.py:178 | a value holding quotes yields `email='x' OR '1'='1'`, which is not a single equality |
| `Upstream.OkMeansBelow400` | crud.py:94 | on the codes 100 to 599, `resp.ok` holds iff the status is below 400 |
| `Upstream.ErrorPayload` | crud.py:37-40 | the decoded body when it parses, otherwise `{message: text}` whose message is the text when the text is non-empty and `"Backendless error"` when it is empty |
| `Upstream.BeError` | crud.py:35-41 | the reply's status is the upstream status, and the body reads back as an envelope with `error = true`, `status` = the upstream status and `backendless` = the payload, with no other key |
| `Upstream.Relay` | crud.py:94-97 | a failed call yields the error envelope with the upstream status; a successful JSON body is answered unchanged with the handler's success status; a successful non-JSON body makes `resp.json()` raise, answered as the uncaught-exception 500 (`ServerError`) |
| `Config.DefaultHeaders` | crud.py:20-28 | the JSON content type always comes first; the two credential headers follow, carrying the configured values, iff both are set and non-empty |
| `Crud.ListUsers` | crud.py:68-97 | always one GET on the collection with the list parameters; the reply is the relay with success status 200 |
| `Crud.GetUser` | crud.py:100-107 | one GET on `base/<id>` with no parameters; relay with 200 |
| `Crud.CreateUser` | crud.py:110-132 | an unparsable body is rejected with 400; a filtered payload is forwarded iff it has both `email` and `username`, otherwise 400; the POST carries exactly the filtered payload, which holds only allowed keys; success answers 201 |
| `Crud.UpdateUser` | crud.py:135-157 | an unparsable body is rejected with 400; forwarded iff the filtered payload is non-empty, otherwise 400; the PUT goes to `base/<id>` with exactly the filtered payload; success answers 200 |
| `Crud.DeleteUser` | crud.py:160-168 | the reply has status 200 iff the upstream status is 200 or 204, and then is `{deleted: true, objectId: id}`; every other status gets the error envelope mirroring it |
| `Crud.FindByEmail` | crud.py:175-184 | one GET on the collection with the finder parameters, whose `where` is exactly `email='<email>'` with no escaping; relay with 200 |
| `Crud.FindByUsername` | crud.py:187-196 | one GET on the collection with the finder parameters, whose `where` is exactly `username='<username>'` with no escaping; relay with 200 |
| `Crud.CreateObjectBody` | crud.py:122-132 | for an object body, create is forwarded iff the body has both `email` and `username`, with the body's restriction as payload |
| `Crud.UpdateObjectBody` | crud.py:148-157 | for an object body, update is forwarded iff the body has at least one allowed key |
| `Crud.FalsyBodyRejected` | crud.py:118-126 | a null or empty body is rejected with 400 by create (required fields) and by update (nothing to update) |
| `Crud.CreateDropsExtraField` | crud.py:122-132 | posting `{email, username, extra}` forwards only `email` and `username`, and a 201 body comes back unchanged with 201 |

## Left out

- The HTTP calls to the data service (`requests.get/post/put/delete`): network I/O; the response is a parameter of each handler.
- Transport failures of those calls (unreachable host): not handled by the source; they surface as an uncaught exception and are not modelled.
- Flask routing, `jsonify`, `abort` and the page Flask renders for an abort or an uncaught exception: framework plumbing; replies are `(status, body)`, `(status, description)` or a bare 500.
- JSON parsing and serialisation (`request.get_json`, `resp.json()`, `json.dumps`): library code; a parse outcome is an `Option`. JSON numbers are integers only.
- `urlencode` and the joining of the base URL with `/<id>` or `?<query>`: library and string plumbing; requests stop at `Target` and the parameter list.
- `int(...)` on the `pageSize` and `offset` arguments and the exception it raises on a non-numeric argument: list arguments are taken as already converted integers.
- Reading the environment (base URL, credentials, port) and server start-up: process configuration and I/O; only the credential-header rule is modelled.
- Config.DefaultHeaders: the header list is not attached to `Crud.Request`, so the model does not state that every outbound call carries it; the headers are fixed at start-up and never depend on the request.
