/** The query parameters sent to the data service, as an ordered list of
    key/value pairs before URL encoding: the list endpoint's paging and filter
    arguments, and the exact-match where clause of the two finders. */
module Query {
  import opened Wrappers
  import opened Json

  /** `urlencode` renders an integer with `str`; strings go as they are. */
  datatype ParamValue = Int(i: int) | Text(s: string)

  datatype Param = Param(key: string, value: ParamValue)

  /** The value of the first parameter named `key`. */
  function Lookup(q: seq<Param>, key: string): Option<ParamValue> {
    if q == [] then None
    else if q[0].key == key then Some(q[0].value)
    else Lookup(q[1..], key)
  }

  /** No key occurs twice (the parameters come from a Python dictionary). */
  predicate DistinctKeys(q: seq<Param>) {
    forall i, j :: 0 <= i < j < |q| ==> q[i].key != q[j].key
  }

  /** In a list without repeated keys, every entry is what a lookup of its key
      finds, and a key that no entry carries is not found. */
  lemma {:induction false} LookupEntries(q: seq<Param>)
    requires DistinctKeys(q)
    ensures forall i :: 0 <= i < |q| ==> Lookup(q, q[i].key) == Some(q[i].value)
    ensures forall key :: (forall p :: p in q ==> p.key != key) ==> Lookup(q, key) == None
  {
    if q != [] {
      LookupEntries(q[1..]);
      forall i | 1 <= i < |q|
        ensures Lookup(q, q[i].key) == Some(q[i].value)
      {
        assert q[1..][i - 1] == q[i];
      }
      forall key | forall p :: p in q ==> p.key != key
        ensures Lookup(q, key) == None
      {
        assert q[0] in q;
        forall p | p in q[1..] ensures p.key != key { assert p in q; }
      }
    }
  }

  const DefaultPageSize: int := 50
  const DefaultOffset: int := 0

  /** The arguments of `GET /users`. The paging arguments are taken already
      converted by `int(...)`; `where` and `sortBy` are passed through opaque. */
  datatype ListArgs = ListArgs(pageSize: Option<int>, offset: Option<int>,
                               where: Option<string>, sortBy: Option<string>)

  /** Specification of the list endpoint's parameters. */
  function ListQuery(args: ListArgs): (q: seq<Param>)
    ensures DistinctKeys(q)
    ensures |q| >= 2 && q[0].key == "pageSize" && q[1].key == "offset"
    ensures Lookup(q, "pageSize") == Some(Int(args.pageSize.GetOr(DefaultPageSize)))
    ensures Lookup(q, "offset") == Some(Int(args.offset.GetOr(DefaultOffset)))
    ensures Lookup(q, "where") == if TruthyText(args.where) then Some(Text(args.where.value)) else None
    ensures Lookup(q, "sortBy") == if TruthyText(args.sortBy) then Some(Text(args.sortBy.value)) else None
    ensures forall p :: p in q ==> p.key in {"pageSize", "offset", "where", "sortBy"}
  {
    var q := [Param("pageSize", Int(args.pageSize.GetOr(DefaultPageSize))),
              Param("offset", Int(args.offset.GetOr(DefaultOffset)))]
             + (if TruthyText(args.where) then [Param("where", Text(args.where.value))] else [])
             + (if TruthyText(args.sortBy) then [Param("sortBy", Text(args.sortBy.value))] else []);
    LookupEntries(q);
    assert q[0].key == "pageSize" && q[1].key == "offset";
    assert TruthyText(args.where) ==> q[2] == Param("where", Text(args.where.value));
    assert TruthyText(args.sortBy) ==> q[|q| - 1] == Param("sortBy", Text(args.sortBy.value));
    q
  }

  /** `list_users`'s `params`: built with both paging entries, then extended
      with `where` and `sortBy` when they are given and non-empty. */
  method ListParams(args: ListArgs) returns (params: seq<Param>)
    ensures params == ListQuery(args)
  {
    var pageSize := args.pageSize.GetOr(DefaultPageSize);
    var offset := args.offset.GetOr(DefaultOffset);
    params := [Param("pageSize", Int(pageSize)), Param("offset", Int(offset))];
    if TruthyText(args.where) {
      params := params + [Param("where", Text(args.where.value))];
    }
    if TruthyText(args.sortBy) {
      params := params + [Param("sortBy", Text(args.sortBy.value))];
    }
  }

  /** With no arguments at all, exactly `pageSize=50&offset=0` is sent. */
  lemma ListQueryDefaults()
    ensures ListQuery(ListArgs(None, None, None, None)) == [Param("pageSize", Int(50)), Param("offset", Int(0))]
  {
  }

  /** The finders' filter `field='value'`, built with no escaping of `value`. */
  function WhereEquals(field: string, value: string): string {
    field + "='" + value + "'"
  }

  /** The finders' parameters, in the order of the source's dictionary. */
  function FinderQuery(field: string, value: string): (q: seq<Param>)
    ensures DistinctKeys(q) && |q| == 3
    ensures Lookup(q, "where") == Some(Text(WhereEquals(field, value)))
    ensures Lookup(q, "pageSize") == Some(Int(DefaultPageSize))
    ensures Lookup(q, "offset") == Some(Int(DefaultOffset))
  {
    var q := [Param("where", Text(WhereEquals(field, value))),
              Param("pageSize", Int(DefaultPageSize)),
              Param("offset", Int(DefaultOffset))];
    LookupEntries(q);
    assert q[0].key == "where" && q[1].key == "pageSize" && q[2].key == "offset";
    q
  }

  /** Reads a where clause as one equality `field='literal'` whose literal is a
      single quoted string, so holds no quote itself; `None` for any other clause. */
  function EqualsLiteral(clause: string, field: string): Option<string> {
    var open := field + "='";
    if |clause| > |open| && clause[..|open|] == open && clause[|clause| - 1] == '\''
       && '\'' !in clause[|open|..|clause| - 1]
    then Some(clause[|open|..|clause| - 1])
    else None
  }

  /** The finder clause reads back as the equality `field = value` exactly when
      `value` holds no quote: a value with a quote closes the literal early and
      the rest of it is read by the data service as more of the where language. */
  lemma WhereEqualsReadBack(field: string, value: string)
    ensures EqualsLiteral(WhereEquals(field, value), field) == if '\'' in value then None else Some(value)
  {
  }

  /** A concrete value for which the email finder's clause is no longer a single equality. */
  lemma QuoteInjection()
    ensures WhereEquals("email", "x' OR '1'='1") == "email='x' OR '1'='1'"
    ensures EqualsLiteral(WhereEquals("email", "x' OR '1'='1"), "email") == None
  {
    WhereEqualsReadBack("email", "x' OR '1'='1");
  }
}
