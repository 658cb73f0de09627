/**
 * The admin server actions: the query string of the admin idea list and
 * the status-update request with its error handling.
 */
module AdminIdeaActions {
  import opened Wrappers
  import opened Text
  import opened Query

  /** The optional filters of `getAdminIdeas`. */
  datatype Filters = Filters(
    page: Option<int>,
    limit: Option<int>,
    searchTerm: Option<string>,
    category: Option<string>,
    status: Option<string>,
    isPaid: Option<bool>
  )

  /** A JavaScript number is truthy when it is present and not zero. */
  predicate NumberTruthy(n: Option<int>)
  {
    n.Some? && n.value != 0
  }

  /** A JavaScript string is truthy when it is present and not empty. */
  predicate TextTruthy(s: Option<string>)
  {
    s.Some? && s.value != ""
  }

  function BoolToString(b: bool): string
  {
    if b then "true" else "false"
  }

  /** Position of each query key in the order the action appends them. */
  function KeyRank(name: string): int
  {
    if name == "page" then 0
    else if name == "limit" then 1
    else if name == "search" then 2
    else if name == "category" then 3
    else if name == "status" then 4
    else if name == "isPaid" then 5
    else 6
  }

  /** The query parameters of `getAdminIdeas`, appended one filter at a time. */
  method BuildQuery(filters: Filters) returns (query: seq<Pair>)
    ensures query == QueryOf(filters)
    ensures InKeyOrder(query)
  {
    var params := new SearchParams([]);
    var page := PageText(filters);
    var limit := LimitText(filters);
    var search := SearchText(filters);
    var category := CategoryText(filters);
    var status := StatusText(filters);
    var isPaid := IsPaidText(filters);
    var p1, p2, p3 := NumberTruthy(filters.page), NumberTruthy(filters.limit), TextTruthy(filters.searchTerm);
    var p4, p5, p6 := TextTruthy(filters.category), TextTruthy(filters.status), filters.isPaid.Some?;
    if p1 { params.Append("page", page); }
    assert params.pairs == Entry(p1, "page", page);
    if p2 { params.Append("limit", limit); }
    assert params.pairs == Entry(p1, "page", page) + Entry(p2, "limit", limit);
    if p3 { params.Append("search", search); }
    assert params.pairs == Entry(p1, "page", page) + Entry(p2, "limit", limit) + Entry(p3, "search", search);
    if p4 { params.Append("category", category); }
    assert params.pairs == Entry(p1, "page", page) + Entry(p2, "limit", limit) + Entry(p3, "search", search)
                         + Entry(p4, "category", category);
    if p5 { params.Append("status", status); }
    assert params.pairs == Entry(p1, "page", page) + Entry(p2, "limit", limit) + Entry(p3, "search", search)
                         + Entry(p4, "category", category) + Entry(p5, "status", status);
    if p6 { params.Append("isPaid", isPaid); }
    assert params.pairs == Entry(p1, "page", page) + Entry(p2, "limit", limit) + Entry(p3, "search", search)
                         + Entry(p4, "category", category) + Entry(p5, "status", status) + Entry(p6, "isPaid", isPaid);
    query := params.pairs;
    QueryOfInKeyOrder(filters);
  }

  /** The text each filter contributes when it is sent. */
  function PageText(filters: Filters): string
  {
    if filters.page.Some? then IntToString(filters.page.value) else ""
  }

  function LimitText(filters: Filters): string
  {
    if filters.limit.Some? then IntToString(filters.limit.value) else ""
  }

  function SearchText(filters: Filters): string
  {
    if filters.searchTerm.Some? then filters.searchTerm.value else ""
  }

  function CategoryText(filters: Filters): string
  {
    if filters.category.Some? then filters.category.value else ""
  }

  function StatusText(filters: Filters): string
  {
    if filters.status.Some? then filters.status.value else ""
  }

  function IsPaidText(filters: Filters): string
  {
    if filters.isPaid.Some? then BoolToString(filters.isPaid.value) else ""
  }

  /** The query `getAdminIdeas` builds, one optional entry per filter. */
  function QueryOf(filters: Filters): seq<Pair>
  {
    Entry(NumberTruthy(filters.page), "page", PageText(filters))
    + Entry(NumberTruthy(filters.limit), "limit", LimitText(filters))
    + Entry(TextTruthy(filters.searchTerm), "search", SearchText(filters))
    + Entry(TextTruthy(filters.category), "category", CategoryText(filters))
    + Entry(TextTruthy(filters.status), "status", StatusText(filters))
    + Entry(filters.isPaid.Some?, "isPaid", IsPaidText(filters))
  }

  /** Each key carries its filter's value exactly when that filter is truthy. */
  lemma QueryOfValues(filters: Filters)
    ensures ValuesOf(QueryOf(filters), "page") == if NumberTruthy(filters.page) then [IntToString(filters.page.value)] else []
    ensures ValuesOf(QueryOf(filters), "limit") == if NumberTruthy(filters.limit) then [IntToString(filters.limit.value)] else []
    ensures ValuesOf(QueryOf(filters), "search") == if TextTruthy(filters.searchTerm) then [filters.searchTerm.value] else []
    ensures ValuesOf(QueryOf(filters), "category") == if TextTruthy(filters.category) then [filters.category.value] else []
    ensures ValuesOf(QueryOf(filters), "status") == if TextTruthy(filters.status) then [filters.status.value] else []
    ensures ValuesOf(QueryOf(filters), "isPaid") == if filters.isPaid.Some? then [BoolToString(filters.isPaid.value)] else []
  {
    QueryOfValue(filters, "page");
    QueryOfValue(filters, "limit");
    QueryOfValue(filters, "search");
    QueryOfValue(filters, "category");
    QueryOfValue(filters, "status");
    QueryOfValue(filters, "isPaid");
  }

  /** The values of one key of `QueryOf`, entry by entry. */
  lemma QueryOfValue(filters: Filters, name: string)
    ensures ValuesOf(QueryOf(filters), name)
         == (if NumberTruthy(filters.page) && name == "page" then [PageText(filters)] else [])
          + (if NumberTruthy(filters.limit) && name == "limit" then [LimitText(filters)] else [])
          + (if TextTruthy(filters.searchTerm) && name == "search" then [SearchText(filters)] else [])
          + (if TextTruthy(filters.category) && name == "category" then [CategoryText(filters)] else [])
          + (if TextTruthy(filters.status) && name == "status" then [StatusText(filters)] else [])
          + (if filters.isPaid.Some? && name == "isPaid" then [IsPaidText(filters)] else [])
  {
    SixEntries(NumberTruthy(filters.page), "page", PageText(filters),
               NumberTruthy(filters.limit), "limit", LimitText(filters),
               TextTruthy(filters.searchTerm), "search", SearchText(filters),
               TextTruthy(filters.category), "category", CategoryText(filters),
               TextTruthy(filters.status), "status", StatusText(filters),
               filters.isPaid.Some?, "isPaid", IsPaidText(filters),
               name);
  }

  /** Every key is one of the six, each at most once, in the order page, limit, search, category, status, isPaid. */
  predicate InKeyOrder(query: seq<Pair>)
  {
    && RanksBelow(query, 6)
    && (forall i, j :: 0 <= i < j < |query| ==> KeyRank(query[i].0) < KeyRank(query[j].0))
  }

  /** Every key of `query` comes before position `bound` of the key order. */
  predicate RanksBelow(query: seq<Pair>, bound: int)
  {
    forall i :: 0 <= i < |query| ==> KeyRank(query[i].0) < bound
  }

  /** Appending an optional key ranked after every key present keeps the order. */
  lemma EntryInOrder(query: seq<Pair>, present: bool, name: string, value: string, rank: int)
    requires rank < 6 && KeyRank(name) == rank
    requires InKeyOrder(query) && RanksBelow(query, rank)
    ensures InKeyOrder(query + Entry(present, name, value)) && RanksBelow(query + Entry(present, name, value), rank + 1)
  {
    if !present {
      assert query + Entry(present, name, value) == query;
    }
  }

  lemma KeyRanks()
    ensures KeyRank("page") == 0 && KeyRank("limit") == 1 && KeyRank("search") == 2
    ensures KeyRank("category") == 3 && KeyRank("status") == 4 && KeyRank("isPaid") == 5
  {
  }

  /** The keys of the query come in the fixed order, each at most once. */
  lemma QueryOfInKeyOrder(filters: Filters)
    ensures InKeyOrder(QueryOf(filters))
  {
    var e1 := Entry(NumberTruthy(filters.page), "page", PageText(filters));
    var e2 := Entry(NumberTruthy(filters.limit), "limit", LimitText(filters));
    var e3 := Entry(TextTruthy(filters.searchTerm), "search", SearchText(filters));
    var e4 := Entry(TextTruthy(filters.category), "category", CategoryText(filters));
    var e5 := Entry(TextTruthy(filters.status), "status", StatusText(filters));
    var e6 := Entry(filters.isPaid.Some?, "isPaid", IsPaidText(filters));
    KeyRanks();
    EntryInOrder([], NumberTruthy(filters.page), "page", PageText(filters), 0);
    assert [] + e1 == e1;
    EntryInOrder(e1, NumberTruthy(filters.limit), "limit", LimitText(filters), 1);
    EntryInOrder(e1 + e2, TextTruthy(filters.searchTerm), "search", SearchText(filters), 2);
    EntryInOrder(e1 + e2 + e3, TextTruthy(filters.category), "category", CategoryText(filters), 3);
    EntryInOrder(e1 + e2 + e3 + e4, TextTruthy(filters.status), "status", StatusText(filters), 4);
    EntryInOrder(e1 + e2 + e3 + e4 + e5, filters.isPaid.Some?, "isPaid", IsPaidText(filters), 5);
    assert QueryOf(filters) == e1 + e2 + e3 + e4 + e5 + e6;
  }

  /** One optional query entry. */
  function Entry(present: bool, name: string, value: string): seq<Pair>
  {
    if present then [(name, value)] else []
  }

  lemma EntryValues(present: bool, name: string, value: string, other: string)
    ensures ValuesOf(Entry(present, name, value), other) == if present && name == other then [value] else []
  {
    if present {
      assert Entry(present, name, value)[1..] == [];
    }
  }

  lemma ValuesOfSix(a: seq<Pair>, b: seq<Pair>, c: seq<Pair>, d: seq<Pair>, e: seq<Pair>, f: seq<Pair>, name: string)
    ensures ValuesOf(a + b + c + d + e + f, name)
         == ValuesOf(a, name) + ValuesOf(b, name) + ValuesOf(c, name) + ValuesOf(d, name) + ValuesOf(e, name) + ValuesOf(f, name)
  {
    ValuesOfAppend(a, b, name);
    ValuesOfAppend(a + b, c, name);
    ValuesOfAppend(a + b + c, d, name);
    ValuesOfAppend(a + b + c + d, e, name);
    ValuesOfAppend(a + b + c + d + e, f, name);
  }

  lemma SixEntries(p1: bool, n1: string, v1: string, p2: bool, n2: string, v2: string,
                   p3: bool, n3: string, v3: string, p4: bool, n4: string, v4: string,
                   p5: bool, n5: string, v5: string, p6: bool, n6: string, v6: string, name: string)
    ensures ValuesOf(Entry(p1, n1, v1) + Entry(p2, n2, v2) + Entry(p3, n3, v3)
                     + Entry(p4, n4, v4) + Entry(p5, n5, v5) + Entry(p6, n6, v6), name)
         == (if p1 && n1 == name then [v1] else []) + (if p2 && n2 == name then [v2] else [])
          + (if p3 && n3 == name then [v3] else []) + (if p4 && n4 == name then [v4] else [])
          + (if p5 && n5 == name then [v5] else []) + (if p6 && n6 == name then [v6] else [])
  {
    ValuesOfSix(Entry(p1, n1, v1), Entry(p2, n2, v2), Entry(p3, n3, v3),
                Entry(p4, n4, v4), Entry(p5, n5, v5), Entry(p6, n6, v6), name);
    EntryValues(p1, n1, v1, name);
    EntryValues(p2, n2, v2, name);
    EntryValues(p3, n3, v3, name);
    EntryValues(p4, n4, v4, name);
    EntryValues(p5, n5, v5, name);
    EntryValues(p6, n6, v6, name);
  }

  /**
   * How the admin list request settles: the parsed JSON of an OK reply, a non-OK
   * status, a `fetch` that rejects, or an OK reply whose body `res.json()` cannot parse.
   */
  datatype ListReply =
    | ListOk(json: seq<Pair>)
    | ListNotOk
    | ListNetworkError(error: string)
    | ListUnparsable(error: string)

  /**
   * What `getAdminIdeas` does with the reply: it throws on a non-OK status, lets the
   * rejection of `fetch` or of `res.json()` through, and returns the JSON otherwise.
   */
  function AdminIdeasResult(reply: ListReply): (result: Result<seq<Pair>>)
    ensures result.Success? <==> reply.ListOk?
    ensures result.Success? ==> result.value == reply.json
    ensures reply.ListNotOk? ==> result == Failure("Failed to fetch ideas")
    ensures reply.ListNetworkError? || reply.ListUnparsable? ==> result == Failure(reply.error)
  {
    match reply
    case ListOk(json) => Success(json)
    case ListNotOk => Failure("Failed to fetch ideas")
    case ListNetworkError(error) => Failure(error)
    case ListUnparsable(error) => Failure(error)
  }

  /**
   * The JSON body of the status update. `JSON.stringify` drops a property
   * whose value is `undefined`, so the feedback is sent only for REJECTED
   * and only when there is feedback to send.
   */
  function StatusBody(status: string, rejectionFeedback: Option<string>): (body: seq<Pair>)
    ensures |body| >= 1 && body[0] == ("status", status)
    ensures ValuesOf(body, "status") == [status]
    ensures ValuesOf(body, "rejectionFeedback")
         == if status == "REJECTED" && rejectionFeedback.Some? then [rejectionFeedback.value] else []
  {
    var sent := status == "REJECTED" && rejectionFeedback.Some?;
    var body := [("status", status)] + Entry(sent, "rejectionFeedback", if sent then rejectionFeedback.value else "");
    ValuesOfAppend([("status", status)], Entry(sent, "rejectionFeedback", if sent then rejectionFeedback.value else ""), "status");
    ValuesOfAppend([("status", status)], Entry(sent, "rejectionFeedback", if sent then rejectionFeedback.value else ""), "rejectionFeedback");
    EntryValues(sent, "rejectionFeedback", if sent then rejectionFeedback.value else "", "status");
    EntryValues(sent, "rejectionFeedback", if sent then rejectionFeedback.value else "", "rejectionFeedback");
    assert [("status", status)][1..] == [];
    body
  }

  /** A JSON body read with `res.json()`: its `message`, or the parse error. */
  datatype JsonBody = Parsed(message: Option<string>, fields: seq<Pair>) | Unparsable(error: string)

  /** How the PATCH request settles. */
  datatype Reply = Response(ok: bool, body: JsonBody) | NetworkError(error: string)

  /** What `updateIdeaStatus` resolves to: the server's JSON, or `{success: false, error}`. */
  datatype StatusResult = Updated(json: seq<Pair>) | Failed(error: string)

  const DefaultStatusError := "Failed to update idea status"

  /**
   * `updateIdeaStatus`: every failure is caught and returned as a value, so
   * the promise always resolves.
   */
  function UpdateIdeaStatus(reply: Reply): (result: StatusResult)
    ensures result.Updated? <==> reply.Response? && reply.ok && reply.body.Parsed?
    ensures result.Updated? ==> result.json == reply.body.fields
    ensures reply.Response? && !reply.ok && reply.body.Parsed? ==>
              result.error == (if reply.body.message.Some? && reply.body.message.value != ""
                               then reply.body.message.value else DefaultStatusError)
    ensures reply.NetworkError? ==> result == Failed(reply.error)
    ensures reply.Response? && reply.body.Unparsable? ==> result == Failed(reply.body.error)
  {
    match reply
    case NetworkError(e) => Failed(e)
    case Response(ok, body) =>
      match body
      case Unparsable(e) => Failed(e)
      case Parsed(message, fields) =>
        if !ok then
          Failed(if message.Some? && message.value != "" then message.value else DefaultStatusError)
        else Updated(fields)
  }
}
