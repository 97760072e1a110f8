/**
 * What the components hand to the network and the router: requests, URLs
 * built with `query-string`'s `stringifyUrl`, and JavaScript's rendering of
 * an absent value inside a template literal.
 */
module Web {
  import opened Wrappers

  datatype Verb = Post | Patch

  datatype Request<B> = Request(verb: Verb, url: string, body: B)

  /** What a form submission ends in: refused by the schema before any request
      is made, or a request sent, which then succeeds or fails. */
  datatype SubmitResult<E, B> = Rejected(errors: E) | Sent(request: Request<B>, succeeded: bool)

  /** A query parameter whose value is defined (keys with an undefined value
      are dropped by `stringifyUrl`, see OptionalParam). */
  datatype QueryParam = QueryParam(key: string, value: string)

  /** `${v}` in a template literal: the text itself, or "undefined". */
  function Interpolate(v: Option<string>): string
  {
    match v
    case Some(s) => s
    case None => "undefined"
  }

  /** A query entry `{key: v}`: present only when `v` is defined. */
  function OptionalParam(key: string, v: Option<string>): (q: seq<QueryParam>)
    ensures |q| <= 1
    ensures q == [] <==> v.None?
    ensures v.Some? ==> q[0] == QueryParam(key, v.value)
  {
    match v
    case Some(s) => [QueryParam(key, s)]
    case None => []
  }

  function ParamText(p: QueryParam): string
  {
    p.key + "=" + p.value
  }

  /** The query part: `key=value` pairs joined with "&". */
  function QueryText(q: seq<QueryParam>): (r: string)
    ensures q != [] ==> |r| > 0
  {
    if q == [] then ""
    else if |q| == 1 then ParamText(q[0])
    else ParamText(q[0]) + "&" + QueryText(q[1..])
  }

  /** `qs.stringifyUrl({url, query})`: the url, followed by "?" and the query
      when the query has an entry. */
  function StringifyUrl(url: string, q: seq<QueryParam>): (r: string)
    ensures |url| <= |r| && r[..|url|] == url
    ensures r == url <==> q == []
    ensures q != [] ==> r[|url|] == '?'
  {
    if q == [] then url else url + "?" + QueryText(q)
  }
}
