/**
 * `TVDBSearchTool.search`: validate the arguments, build the query parameters
 * key by key, run the client's search and format what it returns.
 */
module TvdbSearch {
  import opened Wrappers
  import opened PyText
  import opened PyValue
  import opened TvdbFormat
  import opened TvdbClient

  /**
   * The two `ValueError`s the tool raises itself, and the client's and the
   * formatter's errors, which it lets through.
   */
  datatype SearchError =
    | EmptyQuery
    | LimitOutOfRange
    | ClientFailed(cause: ClientError)
    | FormatFailed(problem: FormatError)

  const MinLimit: int := 1
  const MaxLimit: int := 20
  const DefaultLimit: int := 10

  /** The content types TVDB knows; any other is sent anyway, after a logged warning. */
  const KnownTypes: set<string> := {"series", "movie", "person", "company"}

  /** The keyword arguments of `search`; absent optional ones are `None`. */
  datatype SearchArgs = SearchArgs(
    query: string,
    contentType: Option<string>,
    year: Option<int>,
    company: Option<string>,
    limit: int)

  /** `search(query=query)`: every other argument left at its default. */
  function QueryOnly(query: string): SearchArgs {
    SearchArgs(query, None, None, None, DefaultLimit)
  }

  /** Truthiness of an optional string argument. */
  predicate Given(arg: Option<string>) {
    arg.Some? && arg.value != []
  }

  /** The warning is logged for a given content type that, lower-cased, is not a known one. */
  predicate WarnsOnType(args: SearchArgs) {
    Given(args.contentType) && Lower(args.contentType.value) !in KnownTypes
  }

  /**
   * The parameters the tool hands to the client, or the validation error it
   * raises first: an empty trimmed query before a limit outside [1, 20].
   */
  function SearchParams(args: SearchArgs): Result<seq<(string, Json)>, SearchError> {
    var query := Strip(args.query);
    if query == [] then Err(EmptyQuery)
    else if args.limit < MinLimit || args.limit > MaxLimit then Err(LimitOutOfRange)
    else Ok(ParamsFrom(JStr(query), JInt(args.limit), TypeParam(args), YearParam(args), CompanyParam(args)))
  }

  /** The "type" parameter: the lower-cased content type, when one is given. */
  function TypeParam(args: SearchArgs): Option<Json> {
    if Given(args.contentType) then Some(JStr(Lower(args.contentType.value))) else None
  }

  /** The "year" parameter: the year, when it is not `None`. */
  function YearParam(args: SearchArgs): Option<Json> {
    if args.year.Some? then Some(JInt(args.year.value)) else None
  }

  /** The "company" parameter: the stripped company, when one is given. */
  function CompanyParam(args: SearchArgs): Option<Json> {
    if Given(args.company) then Some(JStr(Strip(args.company.value))) else None
  }

  /** The parameter entries in the order the tool sets them; an absent optional one is not set. */
  function ParamsFrom(query: Json, limit: Json, kind: Option<Json>, year: Option<Json>, company: Option<Json>)
    : seq<(string, Json)>
  {
    [("query", query), ("limit", limit)] + Param("type", kind) + Param("year", year) + Param("company", company)
  }

  /** `params[key] = value`, done only when there is a value. */
  function Param(key: string, value: Option<Json>): seq<(string, Json)> {
    if value.Some? then [(key, value.value)] else []
  }

  /** Each key of the built parameters holds the value it was set to, and an optional one is missing when unset. */
  lemma ParamsFromHold(query: Json, limit: Json, kind: Option<Json>, year: Option<Json>, company: Option<Json>)
    ensures var params := ParamsFrom(query, limit, kind, year, company);
      && Lookup(params, "query") == Some(query)
      && Lookup(params, "limit") == Some(limit)
      && Lookup(params, "type") == kind
      && Lookup(params, "year") == year
      && Lookup(params, "company") == company
  {
    var q := [("query", query)];
    var l := [("limit", limit)];
    assert ParamsFrom(query, limit, kind, year, company) == q + l + Param("type", kind) + Param("year", year) + Param("company", company);
    LookupsIn(q, l, Param("type", kind), Param("year", year), Param("company", company), "query");
    LookupsIn(q, l, Param("type", kind), Param("year", year), Param("company", company), "limit");
    LookupsIn(q, l, Param("type", kind), Param("year", year), Param("company", company), "type");
    LookupsIn(q, l, Param("type", kind), Param("year", year), Param("company", company), "year");
    LookupsIn(q, l, Param("type", kind), Param("year", year), Param("company", company), "company");
  }

  /** The first run that has the key decides a lookup in runs laid end to end. */
  lemma LookupsIn(q: seq<(string, Json)>, l: seq<(string, Json)>, t1: seq<(string, Json)>,
                  t2: seq<(string, Json)>, t3: seq<(string, Json)>, key: string)
    ensures Lookup(q + l + t1 + t2 + t3, key) ==
      if Lookup(q, key).Some? then Lookup(q, key)
      else if Lookup(l, key).Some? then Lookup(l, key)
      else if Lookup(t1, key).Some? then Lookup(t1, key)
      else if Lookup(t2, key).Some? then Lookup(t2, key)
      else Lookup(t3, key)
  {
    LookupConcat(q + l + t1 + t2, t3, key);
    LookupConcat(q + l + t1, t2, key);
    LookupConcat(q + l, t1, key);
    LookupConcat(q, l, key);
  }

  /**
   * What the built parameters hold: the trimmed query and the limit always, the
   * lower-cased type only when one is given (known or not), the year only when
   * it is not `None`, the stripped company only when one is given.
   */
  lemma SearchParamsHold(args: SearchArgs)
    requires SearchParams(args).Ok?
    ensures var params := SearchParams(args).value;
      && Lookup(params, "query") == Some(JStr(Strip(args.query)))
      && Lookup(params, "limit") == Some(JInt(args.limit))
      && Lookup(params, "type") == (if Given(args.contentType) then Some(JStr(Lower(args.contentType.value))) else None)
      && Lookup(params, "year") == (if args.year.Some? then Some(JInt(args.year.value)) else None)
      && Lookup(params, "company") == (if Given(args.company) then Some(JStr(Strip(args.company.value))) else None)
  {
    ParamsFromHold(JStr(Strip(args.query)), JInt(args.limit), TypeParam(args), YearParam(args), CompanyParam(args));
  }

  /** Every built parameter has a value, so the client sends them all, unchanged and in order. */
  lemma SearchParamsSent(args: SearchArgs)
    requires SearchParams(args).Ok?
    ensures CleanParams(SearchParams(args).value) == SearchParams(args).value
  {
    var params := SearchParams(args).value;
    ParamsHaveValues(JStr(Strip(args.query)), JInt(args.limit), TypeParam(args), YearParam(args), CompanyParam(args));
    CleanParamsKeepsSet(params);
  }

  /** No entry of the built parameters is `None`, given that none of the values set is. */
  lemma ParamsHaveValues(query: Json, limit: Json, kind: Option<Json>, year: Option<Json>, company: Option<Json>)
    requires query != JNull && limit != JNull
    requires kind.Some? ==> kind.value != JNull
    requires year.Some? ==> year.value != JNull
    requires company.Some? ==> company.value != JNull
    ensures var params := ParamsFrom(query, limit, kind, year, company);
      forall k :: 0 <= k < |params| ==> params[k].1 != JNull
  {
    var head := [("query", query), ("limit", limit)];
    var tail := Param("type", kind) + Param("year", year) + Param("company", company);
    assert ParamsFrom(query, limit, kind, year, company) == head + tail;
    assert forall k :: 0 <= k < |tail| ==> tail[k].1 != JNull;
  }

  /**
   * The validation of `search`: an all-whitespace query is refused first, then
   * a limit outside [1, 20]; every other set of arguments passes.
   */
  lemma SearchParamsRejects(args: SearchArgs)
    ensures SearchParams(args) == Err(EmptyQuery) <==> !HasNonSpace(args.query)
    ensures SearchParams(args) == Err(LimitOutOfRange) <==>
      HasNonSpace(args.query) && (args.limit < MinLimit || args.limit > MaxLimit)
    ensures SearchParams(args).Ok? <==> HasNonSpace(args.query) && MinLimit <= args.limit <= MaxLimit
  {
    StripEmptyIff(args.query);
  }

  /** A search given only a query sends the trimmed query and the default limit of 10, and nothing else. */
  lemma QueryOnlySearch(query: string)
    requires Strip(query) != []
    ensures SearchParams(QueryOnly(query)) == Ok([("query", JStr(Strip(query))), ("limit", JInt(DefaultLimit))])
  {
    assert ParamsFrom(JStr(Strip(query)), JInt(DefaultLimit), None, None, None)
      == [("query", JStr(Strip(query))), ("limit", JInt(DefaultLimit))];
  }

  /**
   * The text the tool returns, or the error it raises, for the arguments, the
   * client's headers and the HTTP outcome of the search.
   */
  function SearchOutcome(args: SearchArgs, headers: Result<seq<(string, string)>, ClientError>, response: HttpOutcome)
    : Result<string, SearchError>
  {
    match SearchParams(args)
    case Err(e) => Err(e)
    case Ok(_) =>
      if headers.Err? then Err(ClientFailed(headers.error))
      else if response.TransportFailure? then Err(ClientFailed(RequestError))
      else Formatted(Report(response.body))
  }

  /** The formatter's text, or its error passed through. */
  function Formatted(report: Result<string, FormatError>): Result<string, SearchError> {
    match report
    case Ok(text) => Ok(text)
    case Err(e) => Err(FormatFailed(e))
  }

  /** A valid search whose response carries no data answers with the fixed no-results message. */
  lemma SearchWithoutData(args: SearchArgs, headers: Result<seq<(string, string)>, ClientError>, body: Json)
    requires SearchParams(args).Ok? && headers.Ok?
    ensures SearchOutcome(args, headers, Response(body)) == Ok(NoResultsMessage) <==> NoData(body)
  {
    NoResultsIff(body);
  }

  /** `TVDBSearchTool`: a search front end over one client. */
  class SearchTool {
    const client: Client

    constructor (client: Client)
      ensures this.client == client
    {
      this.client := client;
    }

    /**
     * `search`: a validation error is raised before the client is asked for
     * anything; otherwise the client sends exactly the built parameters and the
     * response is formatted.  The warning for an unknown content type is
     * logged once the arguments pass validation.
     */
    method Search(args: SearchArgs, response: HttpOutcome)
      returns (r: Result<string, SearchError>, sent: Option<Request>, warned: bool)
      ensures r == SearchOutcome(args, client.Headers(), response)
      ensures warned <==> SearchParams(args).Ok? && WarnsOnType(args)
      ensures SearchParams(args).Err? ==> sent == None
      ensures SearchParams(args).Ok? && client.Headers().Err? ==> sent == None
      ensures SearchParams(args).Ok? && client.Headers().Ok? ==>
        sent == Some(Request("GET", BaseUrl + "/search", SearchParams(args).value, client.Headers().value))
    {
      var params;
      params, warned := BuildParams(args);
      if params.Err? {
        return Err(params.error), None, warned;
      }
      SearchParamsSent(args);
      var results;
      results, sent := client.Search(params.value, response);
      if results.Err? {
        return Err(ClientFailed(results.error)), sent, warned;
      }
      var formatted := FormatSearchResults(results.value);
      assert SearchOutcome(args, client.Headers(), response) == Formatted(formatted);
      if formatted.Err? {
        return Err(FormatFailed(formatted.error)), sent, warned;
      }
      r := Ok(formatted.value);
    }
  }

  /**
   * The validation and the parameter dict of `search`, filled key by key,
   * and whether the unknown-content-type warning is logged on the way.
   */
  method BuildParams(args: SearchArgs) returns (r: Result<seq<(string, Json)>, SearchError>, warned: bool)
    ensures r == SearchParams(args)
    ensures warned <==> r.Ok? && WarnsOnType(args)
  {
    warned := false;
    var query := Strip(args.query);
    if query == [] {
      return Err(EmptyQuery), warned;
    }
    if args.limit < MinLimit || args.limit > MaxLimit {
      return Err(LimitOutOfRange), warned;
    }
    var params := [("query", JStr(query)), ("limit", JInt(args.limit))];
    params, warned := SetOptionalParams(params, args);
    r := Ok(params);
  }

  /** The optional keys of `search`, each set only when its argument is given, in the order the source sets them. */
  method SetOptionalParams(base: seq<(string, Json)>, args: SearchArgs) returns (params: seq<(string, Json)>, warned: bool)
    ensures params == base + Param("type", TypeParam(args)) + Param("year", YearParam(args)) + Param("company", CompanyParam(args))
    ensures warned <==> WarnsOnType(args)
  {
    params := base;
    warned := false;
    if Given(args.contentType) {
      var normalized := Lower(args.contentType.value);
      warned := normalized !in KnownTypes;
      params := params + [("type", JStr(normalized))];
    }
    assert params == base + Param("type", TypeParam(args));
    if args.year.Some? {
      params := params + [("year", JInt(args.year.value))];
    }
    assert params == base + Param("type", TypeParam(args)) + Param("year", YearParam(args));
    if Given(args.company) {
      params := params + [("company", JStr(Strip(args.company.value)))];
    }
  }
}
