/** The allow-list of user fields: `pick_user_fields` and the way it behaves on
    whatever JSON value the client sent as a body. */
module Users {
  import opened Wrappers
  import opened Json

  /** The six columns of the Users table that a client may set. */
  const Allowed: set<string> := {"email", "First Name", "Last Name", "ID", "password", "username"}

  /** Reference definition: `data` restricted to the allowed keys. */
  function UserFields(data: map<string, Value>): map<string, Value> {
    map k | k in data && k in Allowed :: data[k]
  }

  /** `pick_user_fields`: walks the allowed set in no particular order and copies
      every allowed key present in `data` into a fresh dictionary. */
  method PickUserFields(data: map<string, Value>) returns (out: map<string, Value>)
    ensures out.Keys == data.Keys * Allowed
    ensures forall k :: k in out ==> out[k] == data[k]
    ensures out == UserFields(data)
  {
    out := map[];
    var todo := Allowed;
    while todo != {}
      invariant todo <= Allowed
      invariant out.Keys == data.Keys * (Allowed - todo)
      invariant forall k :: k in out ==> out[k] == data[k]
      decreases todo
    {
      var k :| k in todo;
      if k in data {
        out := out[k := data[k]];
      }
      todo := todo - {k};
    }
  }

  /** Every allowed key present in the input comes out with the same value, and
      nothing else comes out. */
  lemma UserFieldsIsRestriction(data: map<string, Value>)
    ensures forall k :: k in UserFields(data) <==> k in data && k in Allowed
    ensures forall k :: k in UserFields(data) ==> UserFields(data)[k] == data[k]
  {
  }

  /** Filtering twice is filtering once. */
  lemma UserFieldsIdempotent(data: map<string, Value>)
    ensures UserFields(UserFields(data)) == UserFields(data)
  {
  }

  /** The result's keys are a subset of the input's and of the allow-list. */
  lemma UserFieldsKeys(data: map<string, Value>)
    ensures UserFields(data).Keys <= data.Keys
    ensures UserFields(data).Keys <= Allowed
  {
  }

  /** A key outside the allow-list has no influence on the result, whatever its value. */
  lemma UserFieldsIgnoresOthers(data: map<string, Value>, k: string, v: Value)
    requires k !in Allowed
    ensures UserFields(data[k := v]) == UserFields(data)
  {
  }

  /** An input that holds only allowed keys passes unchanged. */
  lemma UserFieldsKeepsAllowed(data: map<string, Value>)
    requires data.Keys <= Allowed
    ensures UserFields(data) == data
  {
  }

  /** `k in s` on a Python string: `k` occurs in `s` as a contiguous substring. */
  predicate Occurs(k: string, s: string) {
    exists i :: 0 <= i <= |s| && k <= s[i..]
  }

  /** `pick_user_fields(body)` when the body is not necessarily a JSON object.
      `None` stands for the TypeError Python raises: `k in body` is not defined on
      null, booleans and numbers, and `body[k]` with a string key is not defined
      on a list or a string, so a list holding an allowed key as an element, or a
      string containing one as a substring, raises once that key is reached. A
      list or string that mentions no allowed key yields the empty dictionary. */
  function BodyFields(body: Value): (r: Option<map<string, Value>>)
    ensures body.Object? ==> r == Some(UserFields(body.fields))
    ensures r.Some? ==> r.value.Keys <= Allowed
    ensures r.Some? && !body.Object? ==> r.value == map[]
    ensures (body.Null? || body.Bool? || body.Number?) ==> r.None?
    ensures body.Array? ==> (r.None? <==> exists k :: k in Allowed && Str(k) in body.items)
    ensures body.Str? ==> (r.None? <==> exists k :: k in Allowed && Occurs(k, body.s))
  {
    match body
    case Object(fields) => Some(UserFields(fields))
    case Array(items) =>
      if exists k :: k in Allowed && Str(k) in items then None else Some(map[])
    case Str(s) =>
      if exists k :: k in Allowed && Occurs(k, s) then None else Some(map[])
    case _ => None
  }
}
