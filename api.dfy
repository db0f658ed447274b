/**
 * The fetch client: the two requests it sends to the launch API and the
 * classification of whatever the network, HTTP and JSON layers produced
 * into results or "nothing".
 *
 * `fetch` is injected: a function from the request to the already-settled
 * response, so the model has no I/O and no waiting.
 */
module Api {
  import opened Wrappers

  // ---------------------------------------------------------------------------
  // Requests

  /** Base address of the development instance of the launch API. */
  const ApiUrl: string := "https://lldev.thespacedevs.com/2.2.0/"

  /** `new URL('launch', ApiUrl)`: the base ends with '/', so the path is appended. */
  const LaunchUrl: string := ApiUrl + "launch"

  type Param = (string, string)

  /** A GET request: an address and its query parameters, in order. */
  datatype Request = Request(url: string, params: seq<Param>)

  /** `URLSearchParams.get`: the value of the first pair with that name. */
  function GetParam(ps: seq<Param>, name: string): Option<string>
    decreases |ps|
  {
    if |ps| == 0 then None
    else if ps[0].0 == name then Some(ps[0].1)
    else GetParam(ps[1..], name)
  }

  /** Number of pairs with that name. */
  function Occurrences(ps: seq<Param>, name: string): nat
    decreases |ps|
  {
    if |ps| == 0 then 0
    else (if ps[0].0 == name then 1 else 0) + Occurrences(ps[1..], name)
  }

  /** Every pair whose name is not `name`, in order. */
  function RemoveNamed(ps: seq<Param>, name: string): seq<Param>
    decreases |ps|
  {
    if |ps| == 0 then []
    else if ps[0].0 == name then RemoveNamed(ps[1..], name)
    else [ps[0]] + RemoveNamed(ps[1..], name)
  }

  /**
   * `URLSearchParams.set`: the first pair with that name gets the new value
   * and every later pair with that name is dropped; with no such pair, the
   * pair is appended.
   */
  function SetParam(ps: seq<Param>, name: string, value: string): seq<Param>
    decreases |ps|
  {
    if |ps| == 0 then [(name, value)]
    else if ps[0].0 == name then [(name, value)] + RemoveNamed(ps[1..], name)
    else [ps[0]] + SetParam(ps[1..], name, value)
  }

  lemma {:induction false} RemoveNamedKeepsOthers(ps: seq<Param>, name: string, other: string)
    requires other != name
    ensures GetParam(RemoveNamed(ps, name), other) == GetParam(ps, other)
    ensures Occurrences(RemoveNamed(ps, name), name) == 0
    decreases |ps|
  {
    if |ps| > 0 {
      RemoveNamedKeepsOthers(ps[1..], name, other);
      if ps[0].0 != name {
        assert ([ps[0]] + RemoveNamed(ps[1..], name))[1..] == RemoveNamed(ps[1..], name);
      }
    }
  }

  /** After `set`, `get` returns the new value, the name occurs once, and no other name changes. */
  lemma {:induction false} SetThenGet(ps: seq<Param>, name: string, value: string, other: string)
    ensures GetParam(SetParam(ps, name, value), name) == Some(value)
    ensures Occurrences(SetParam(ps, name, value), name) == 1
    ensures other != name ==> GetParam(SetParam(ps, name, value), other) == GetParam(ps, other)
    decreases |ps|
  {
    if |ps| > 0 {
      if ps[0].0 == name {
        if other != name {
          RemoveNamedKeepsOthers(ps[1..], name, other);
        } else {
          RemoveNamedKeepsOthers(ps[1..], name, name + "'");
        }
        assert ([(name, value)] + RemoveNamed(ps[1..], name))[1..] == RemoveNamed(ps[1..], name);
      } else {
        SetThenGet(ps[1..], name, value, other);
        assert ([ps[0]] + SetParam(ps[1..], name, value))[1..] == SetParam(ps[1..], name, value);
      }
    }
  }

  /** The search request: `search=<query>` then `mode=list`. */
  function SearchRequest(query: string): Request
  {
    Request(LaunchUrl, SetParam(SetParam([], "search", query), "mode", "list"))
  }

  /** The detail request: `id=<id>`. */
  function DetailRequest(id: string): Request
  {
    Request(LaunchUrl, SetParam([], "id", id))
  }

  lemma SearchRequestCarriesQuery(query: string)
    ensures SearchRequest(query).url == "https://lldev.thespacedevs.com/2.2.0/launch"
    ensures SearchRequest(query).params == [("search", query), ("mode", "list")]
    ensures GetParam(SearchRequest(query).params, "search") == Some(query)
    ensures GetParam(SearchRequest(query).params, "mode") == Some("list")
  {
    var first := [("search", query)];
    assert SetParam([], "search", query) == first;
    assert first[0].0 != "mode";
    assert SetParam(first, "mode", "list") == [("search", query)] + SetParam(first[1..], "mode", "list");
  }

  lemma DetailRequestCarriesId(id: string)
    ensures DetailRequest(id).url == "https://lldev.thespacedevs.com/2.2.0/launch"
    ensures DetailRequest(id).params == [("id", id)]
    ensures GetParam(DetailRequest(id).params, "id") == Some(id)
  {
  }

  // ---------------------------------------------------------------------------
  // Records

  datatype Status = Status(name: string, description: string)

  datatype Mission = Mission(name: string, description: string)

  /** A launch as the search endpoint lists it (`mode=list`). */
  datatype LaunchSummary = LaunchSummary(id: string, name: string, status: Status, mission: string)

  /** A launch as the detail request returns it. */
  datatype LaunchDetail = LaunchDetail(
    id: string,
    name: string,
    windowStart: string,
    windowEnd: string,
    status: Status,
    mission: Mission,
    image: string)

  // ---------------------------------------------------------------------------
  // Responses

  /**
   * The `results` property of the decoded document, by how JavaScript treats it:
   * Absent covers a missing property as well as a document that is not an
   * object (a number, a string, an array); FalsyScalar is `false`, `0` or `""`.
   */
  datatype ResultsField<T> = Absent | NullField | FalsyScalar | Records(items: seq<T>)

  /** What `response.json()` produced: a parse failure, the JSON literal `null`, or a value. */
  datatype Body<T> = Unparseable | NullDocument | Document(results: ResultsField<T>)

  /** What `fetch` settled with: a thrown network error, or a response and its body. */
  datatype Raw<T> = NetworkError | Response(ok: bool, body: Body<T>)

  /** A JavaScript value that is a record, `undefined` or `null`. */
  datatype JsValue<T> = Value(value: T) | Undefined | Null {
    /** `if (result)`: only a record is truthy. */
    predicate Truthy() { Value? }
  }

  /** How a JavaScript function call ends: it returns a value or throws. */
  datatype Completion<T> = Returned(value: T) | Threw

  // ---------------------------------------------------------------------------
  // searchLaunches

  /**
   * The outcome of `searchLaunches` for a settled fetch: the results array
   * as the server sent it, or None for a network error, a non-ok status, a
   * body that does not parse, and a missing or falsy `results`. A body that
   * is the JSON literal `null` is also None here: see SearchLaunchesAsWritten.
   */
  function ClassifySearch(raw: Raw<LaunchSummary>): (r: Option<seq<LaunchSummary>>)
    ensures raw.NetworkError? ==> r == None
    ensures raw.Response? && !raw.ok ==> r == None
    ensures raw.Response? && raw.body.Unparseable? ==> r == None
    ensures r.Some? <==> raw.Response? && raw.ok && raw.body.Document? && raw.body.results.Records?
    ensures r.Some? ==> r.value == raw.body.results.items
  {
    match raw
    case NetworkError => None
    case Response(ok, body) =>
      if !ok then None
      else match body
        case Unparseable => None
        case NullDocument => None
        case Document(results) =>
          match results
          case Records(items) => Some(items)
          case _ => None
  }

  /**
   * `searchLaunches` as the code reads: the test of `json.results` stands
   * outside every `try`, so on a body that decodes to `null` the property
   * access throws and the returned promise rejects instead of giving `null`.
   */
  function SearchLaunchesAsWritten(raw: Raw<LaunchSummary>): (r: Completion<Option<seq<LaunchSummary>>>)
    ensures r.Threw? <==> raw == Response(true, NullDocument)
    ensures r.Returned? ==> r.value == ClassifySearch(raw)
  {
    match raw
    case NetworkError => Returned(None)
    case Response(ok, body) =>
      if !ok then Returned(None)
      else match body
        case Unparseable => Returned(None)
        case NullDocument => Threw
        case Document(results) =>
          match results
          case Absent => Returned(None)
          case NullField => Returned(None)
          case FalsyScalar => Returned(None)
          case Records(items) => Returned(Some(items))
  }

  /** The 200 response whose body is `null` makes the code as written throw. */
  lemma NullDocumentEscapes()
    ensures SearchLaunchesAsWritten(Response(true, NullDocument)) == Threw
    ensures ClassifySearch(Response(true, NullDocument)) == None
  {
  }

  /** The search: one request built from the query, classified. */
  function SearchLaunches(query: string, fetch: Request -> Raw<LaunchSummary>): (r: Option<seq<LaunchSummary>>)
    ensures r.Some? <==> exists items :: fetch(SearchRequest(query)) == ServeSearch(items)
    ensures r.Some? ==> fetch(SearchRequest(query)) == ServeSearch(r.value)
  {
    var raw := fetch(SearchRequest(query));
    var r := ClassifySearch(raw);
    assert r.Some? ==> raw == ServeSearch(r.value);
    r
  }

  /** The one response that yields a given results array. */
  function ServeSearch(items: seq<LaunchSummary>): Raw<LaunchSummary>
  {
    Response(true, Document(Records(items)))
  }

  /**
   * Results come back exactly as served (same length, order and elements;
   * an empty array stays an empty array), and served results are the only
   * way to get them.
   */
  lemma SearchReturnsServedResults(raw: Raw<LaunchSummary>, items: seq<LaunchSummary>)
    ensures ClassifySearch(raw) == Some(items) <==> raw == ServeSearch(items)
  {
  }

  /** The outcome depends on the fetch only through the request built from the query. */
  lemma SearchDependsOnlyOnItsRequest(query: string, f: Request -> Raw<LaunchSummary>, g: Request -> Raw<LaunchSummary>)
    requires f(SearchRequest(query)) == g(SearchRequest(query))
    ensures SearchLaunches(query, f) == SearchLaunches(query, g)
  {
  }

  // ---------------------------------------------------------------------------
  // getLaunch

  /**
   * The outcome of `getLaunch` for a settled fetch. Every throw inside its
   * `try` (network error, non-ok status, unparseable body, and indexing a
   * `results` that is `undefined` or `null`, or a body that is `null`) is
   * caught and gives `null`. Indexing a falsy scalar or an empty array does
   * not throw and gives `undefined`; otherwise the first record.
   */
  function ClassifyDetail(raw: Raw<LaunchDetail>): (r: JsValue<LaunchDetail>)
    ensures r.Value? <==>
      raw.Response? && raw.ok && raw.body.Document? && raw.body.results.Records? && |raw.body.results.items| > 0
    ensures r.Value? ==> r.value == raw.body.results.items[0]
    ensures r.Undefined? <==>
      raw.Response? && raw.ok && raw.body.Document? &&
      (raw.body.results.FalsyScalar? || raw.body.results == Records([]))
    ensures raw.NetworkError? || !raw.ok || !raw.body.Document? ==> r == Null
  {
    match raw
    case NetworkError => Null
    case Response(ok, body) =>
      if !ok then Null
      else match body
        case Unparseable => Null
        case NullDocument => Null
        case Document(results) =>
          match results
          case Absent => Null
          case NullField => Null
          case FalsyScalar => Undefined
          case Records(items) => if |items| == 0 then Undefined else Value(items[0])
  }

  /** The detail fetch: one request built from the id, classified. */
  function GetLaunch(id: string, fetch: Request -> Raw<LaunchDetail>): (r: JsValue<LaunchDetail>)
    ensures r.Value? <==>
      exists d, rest :: fetch(DetailRequest(id)) == Response(true, Document(Records([d] + rest)))
    ensures r.Value? ==> exists rest :: fetch(DetailRequest(id)) == Response(true, Document(Records([r.value] + rest)))
  {
    var raw := fetch(DetailRequest(id));
    var r := ClassifyDetail(raw);
    assert r.Value? ==> raw == Response(true, Document(Records([r.value] + raw.body.results.items[1..])));
    r
  }

  /** The outcome depends on the fetch only through the request built from the id. */
  lemma DetailDependsOnlyOnItsRequest(id: string, f: Request -> Raw<LaunchDetail>, g: Request -> Raw<LaunchDetail>)
    requires f(DetailRequest(id)) == g(DetailRequest(id))
    ensures GetLaunch(id, f) == GetLaunch(id, g)
  {
  }

  /** An empty `results` array is "no record", not a failed lookup that throws. */
  lemma EmptyResultsIsNoRecord()
    ensures ClassifyDetail(Response(true, Document(Records([])))) == Undefined
    ensures !ClassifyDetail(Response(true, Document(Records([])))).Truthy()
  {
  }

  /** A record is found exactly when the served array has one first. */
  lemma DetailFoundExactly(raw: Raw<LaunchDetail>, d: LaunchDetail)
    ensures ClassifyDetail(raw) == Value(d) <==>
      exists rest: seq<LaunchDetail> :: raw == Response(true, Document(Records([d] + rest)))
  {
    if ClassifyDetail(raw) == Value(d) {
      var items := raw.body.results.items;
      assert raw == Response(true, Document(Records([d] + items[1..])));
    }
  }
}
