/**
 * What `_request` does to a call's `query` and `body` before validation.
 * When the call has a (truthy) query, the defaults `page: 1` and
 * `per_page: <client page size>` are put under the caller's own query
 * keys. When it has both a query and a body, a truthy `per_page` or
 * `page` in the body moves to the query, overriding what is there, and
 * is deleted from the body. The client method that does this step by
 * step is `CloudFlare.Client.Request`; these functions say what its
 * result is.
 */
module Pagination {
  import opened JsValue

  const Page: string := "page"
  const PerPage: string := "per_page"

  predicate IsPaginationKey(k: string) {
    k == Page || k == PerPage
  }

  /** `hasQuery && payload.body[k]`, for the two keys the body can hand over. */
  predicate MovesFromBody(query: Value, body: Value, k: string) {
    Truthy(query) && Truthy(body) && IsPaginationKey(k) && Truthy(Get(body, k))
  }

  /** The object `{page: 1, per_page: perPage}` that the caller's query extends. */
  function Defaults(perPage: Value): map<string, Value> {
    map[Page := Num(1), PerPage := perPage]
  }

  /** The entries the body hands over to the query. */
  function Moved(query: Value, body: Value): (m: map<string, Value>)
    ensures forall k :: k in m <==> MovesFromBody(query, body, k)
    ensures forall k :: k in m ==> m[k] == Get(body, k)
  {
    (if MovesFromBody(query, body, PerPage) then map[PerPage := Get(body, PerPage)] else map[])
    + (if MovesFromBody(query, body, Page) then map[Page := Get(body, Page)] else map[])
  }

  /** `payload.query` once `_request` is done with it. */
  function PaginatedQuery(query: Value, body: Value, perPage: Value): (r: Value)
    // no query: no pagination is injected and nothing moves
    ensures !Truthy(query) ==> r == query
    ensures Truthy(query) ==> r.Obj? && r.props.Keys == OwnProps(query).Keys + {Page, PerPage}
    // a pagination value in the body wins over the caller's query and the defaults
    ensures forall k :: MovesFromBody(query, body, k) ==> r.Obj? && k in r.props && r.props[k] == Get(body, k)
    // otherwise every caller-supplied key keeps its value
    ensures forall k :: (Truthy(query) && k in OwnProps(query) && !MovesFromBody(query, body, k)
                         ==> r.Obj? && k in r.props && r.props[k] == OwnProps(query)[k])
    // and a pagination key nobody supplied gets its default
    ensures Truthy(query) && Page !in OwnProps(query) && !MovesFromBody(query, body, Page)
      ==> r.Obj? && Page in r.props && r.props[Page] == Num(1)
    ensures Truthy(query) && PerPage !in OwnProps(query) && !MovesFromBody(query, body, PerPage)
      ==> r.Obj? && PerPage in r.props && r.props[PerPage] == perPage
  {
    if Truthy(query) then Obj(Defaults(perPage) + OwnProps(query) + Moved(query, body)) else query
  }

  /** `payload.body` once `_request` is done with it. */
  function RemainingBody(query: Value, body: Value): (r: Value)
    ensures !Truthy(query) ==> r == body
    ensures r.Obj? <==> body.Obj?
    ensures !body.Obj? ==> r == body
    // what moved is gone from the body
    ensures forall k :: MovesFromBody(query, body, k) ==> k !in OwnProps(r)
    // everything else, a falsy page or per_page included, stays as it was
    ensures forall k :: !MovesFromBody(query, body, k) ==> Get(r, k) == Get(body, k)
    ensures forall k :: !MovesFromBody(query, body, k) ==> (k in OwnProps(r) <==> k in OwnProps(body))
    // with a query, no truthy pagination value is left in the body
    ensures Truthy(query) ==> !Truthy(Get(r, Page)) && !Truthy(Get(r, PerPage))
  {
    if body.Obj? then Obj(body.props - Moved(query, body).Keys) else body
  }

  /**
   * A call with a query always goes out with a non-empty query (so its URL
   * carries a query string), and a call without one goes out with none.
   */
  lemma QueryStringPresence(query: Value, body: Value, perPage: Value)
    ensures |OwnProps(PaginatedQuery(query, body, perPage))| > 0 <==> Truthy(query)
  {
    var r := PaginatedQuery(query, body, perPage);
    if Truthy(query) {
      assert Page in OwnProps(r);
    } else {
      assert OwnProps(r) == OwnProps(query);
      assert OwnProps(query) == map[] by {
        assert !query.Obj?;
      }
    }
  }

  /** A body `page: 0` is not moved: the query has the default page and the body keeps its 0. */
  lemma FalsyBodyPageStays(perPage: Value)
    ensures var query, body := Obj(map[]), Obj(map[Page := Num(0)]);
      && PaginatedQuery(query, body, perPage) == Obj(map[Page := Num(1), PerPage := perPage])
      && RemainingBody(query, body) == body
  {
    var query, body := Obj(map[]), Obj(map[Page := Num(0)]);
    assert !MovesFromBody(query, body, Page) && !MovesFromBody(query, body, PerPage);
    assert Moved(query, body) == map[];
    assert body.props - {} == body.props;
  }
}
