/**
 * The query text and parameter list a blog tool hands to the database, and the
 * `LIMIT` handling every blog tool shares. Executing a query is not modelled:
 * the tools receive the database as a function from query to rows.
 */
module Sql {
  import opened Wrappers
  import opened Text

  /** A value bound to one `?` placeholder. */
  datatype Param = IntParam(i: int) | TextParam(s: string)

  /** A parameterised query: its text and the values its placeholders bind, in order. */
  datatype Query = Query(text: string, params: seq<Param>)

  /** The number of `?` placeholders in a query text. */
  function Placeholders(text: string): nat
  {
    Count('?', text)
  }

  /** A query is well bound when it has exactly one parameter per placeholder. */
  predicate WellBound(q: Query)
  {
    Placeholders(q.text) == |q.params|
  }

  /** `limit is not None and isinstance(limit, int) and limit > 0` */
  predicate PositiveLimit(limit: Option<int>)
  {
    limit.Some? && limit.value > 0
  }

  /** The text a positive limit appends to a query. */
  function LimitSuffix(limit: Option<int>): string
  {
    if PositiveLimit(limit) then " LIMIT ?" else ""
  }

  /** The parameter a positive limit appends to a query. */
  function LimitParams(limit: Option<int>): seq<Param>
  {
    if PositiveLimit(limit) then [IntParam(limit.value)] else []
  }

  /** The limit suffix binds exactly the parameters it adds: one for a positive limit, none otherwise. */
  lemma LimitWellBound(limit: Option<int>)
    ensures Placeholders(LimitSuffix(limit)) == |LimitParams(limit)|
    ensures |LimitParams(limit)| == (if PositiveLimit(limit) then 1 else 0)
  {
    assert Count('?', "?") == 1;
    CountConcat('?', " LIMIT ", "?");
    assert " LIMIT ?" == " LIMIT " + "?";
  }
}
