/** The shared request builder and response classifier of every security
    client (pycharts/base.py): URL path and query assembly, validation and
    formatting of date arguments, and the mapping of a transport outcome to
    either the decoded document or one of the client's exceptions. The HTTP
    transport is a function parameter `server`; the decoded document's payload
    is an opaque type parameter `P` that is handed back untouched. */
module Base {
  import opened Wrappers
  import opened Strings
  import opened Exceptions

  const ApiVersion: string := "v3"
  const BaseUrl: string := "https://ycharts.com/api"
  const AuthorizationHeader: string := "X-YCHARTSAUTHORIZATION"

  /** What every URL the client requests starts with. */
  const ApiRoot: string := BaseUrl + "/" + ApiVersion + "/"

  /** A client: its class's SECURITY_TYPE_PATH (None on the base class itself)
      and the API key its constructor puts into the request header. */
  datatype SecurityClient = SecurityClient(securityTypePath: MaybeText, apiKey: string)
  {
    /** `self.header`. */
    function Header(): seq<(string, string)> {
      [(AuthorizationHeader, apiKey)]
    }
  }

  /** `BaseSecurityClient(api_key)`: the base class has no security type path,
      and the key travels in the authorization header. */
  function NewSecurityClient(apiKey: string): (c: SecurityClient)
    ensures c.securityTypePath == NoneValue
    ensures c.Header() == [("X-YCHARTSAUTHORIZATION", apiKey)]
  {
    SecurityClient(NoneValue, apiKey)
  }

  /** An HTTP request: full URL and headers. */
  datatype Request = Request(url: string, headers: seq<(string, string)>)

  // ---------------------------------------------------------------------------
  // calendar dates

  predicate IsLeapYear(year: int) {
    year % 4 == 0 && (year % 100 != 0 || year % 400 == 0)
  }

  function DaysInMonth(year: int, month: int): int
    requires 1 <= month <= 12
  {
    if month == 2 then (if IsLeapYear(year) then 29 else 28)
    else if month in {4, 6, 9, 11} then 30
    else 31
  }

  /** The fields of a `datetime.datetime` (its tzinfo plays no part here). */
  datatype DateTime = DateTime(year: int, month: int, day: int,
                               hour: int, minute: int, second: int, microsecond: int)
  {
    /** The ranges `datetime.datetime` enforces on construction. */
    predicate Valid() {
      1 <= year <= 9999 && 1 <= month <= 12 && 1 <= day <= DaysInMonth(year, month) &&
      0 <= hour < 24 && 0 <= minute < 60 && 0 <= second < 60 && 0 <= microsecond < 1000000
    }
  }

  type ValidDateTime = dt: DateTime | dt.Valid() witness DateTime(1, 1, 1, 0, 0, 0, 0)

  /** `dt.isoformat().split('T')[0]`: the calendar date as YYYY-MM-DD. */
  function IsoDate(dt: ValidDateTime): (s: string)
    ensures |s| == 10 && s[4] == '-' && s[7] == '-'
    ensures forall i :: 0 <= i < 10 && i != 4 && i != 7 ==> IsDigit(s[i])
  {
    Digits(dt.year, 4) + "-" + Digits(dt.month, 2) + "-" + Digits(dt.day, 2)
  }

  /** Reads a YYYY-MM-DD text back into (year, month, day). */
  function ParseIsoDate(s: string): Option<(int, int, int)> {
    if |s| == 10 && s[4] == '-' && s[7] == '-' &&
       AllDigits(s[..4]) && AllDigits(s[5..7]) && AllDigits(s[8..])
    then Some((DecimalValue(s[..4]), DecimalValue(s[5..7]), DecimalValue(s[8..])))
    else None
  }

  /** The ISO date is ten characters long, holds no time of day, and reads back
      as the datetime's year, month and day. */
  lemma {:induction false} IsoDateRoundTrip(dt: ValidDateTime)
    ensures |IsoDate(dt)| == 10
    ensures ParseIsoDate(IsoDate(dt)) == Some((dt.year, dt.month, dt.day))
  {
    var s := IsoDate(dt);
    assert s[..4] == Digits(dt.year, 4);
    assert s[5..7] == Digits(dt.month, 2);
    assert s[8..] == Digits(dt.day, 2);
    DecimalOfDigits(dt.year, 4);
    DecimalOfDigits(dt.month, 2);
    DecimalOfDigits(dt.day, 2);
  }

  // ---------------------------------------------------------------------------
  // query parameters

  /** The Python values a caller may pass as a query date. */
  datatype DateArg =
    | NoDate                     // None, the default
    | DateTimeArg(dt: ValidDateTime)
    | IntArg(n: int)             // an int; a bool is the int 0 or 1
    | OtherArg(truthy: bool)     // any other object: a str, a datetime.date, a float, ...

  /** Python truthiness, which decides whether a date argument is used at all. */
  predicate Truthy(d: DateArg) {
    match d
    case NoDate => false
    case DateTimeArg(_) => true
    case IntArg(n) => n != 0
    case OtherArg(t) => t
  }

  /** A query parameter value: the ISO text of a datetime or a negative int. */
  datatype ParamValue = TextParam(text: string) | IntParam(n: int)

  /** `str(v)`, as urlencode applies it to every value. */
  function ParamText(v: ParamValue): string {
    match v
    case TextParam(t) => t
    case IntParam(n) => IntToDecimal(n)
  }

  /** The characters urlencode leaves as they are. */
  predicate UrlSafeChar(c: char) {
    ('a' <= c <= 'z') || ('A' <= c <= 'Z') || ('0' <= c <= '9') || c == '_' || c == '.' || c == '-' || c == '~'
  }

  predicate UrlSafe(s: string) {
    forall i :: 0 <= i < |s| ==> UrlSafeChar(s[i])
  }

  const InvalidDateMessage: string :=
    "Invalid Date paramter. Date should be a datetime object or a negative integer."

  /** `_format_query_date_for_url`, with the datetime branch returning the ISO
      date as evidently intended: a datetime becomes its YYYY-MM-DD date, a
      negative int passes through unchanged, and anything else is refused with
      a malformed-request exception (code 400). */
  function FormatQueryDate(d: DateArg): (r: Result<ParamValue, RequestException>)
    ensures r.Ok? <==> d.DateTimeArg? || (d.IntArg? && d.n < 0)
    ensures d.DateTimeArg? ==>
      r.value.TextParam? && |r.value.text| == 10 &&
      ParseIsoDate(r.value.text) == Some((d.dt.year, d.dt.month, d.dt.day))
    ensures d.IntArg? && d.n < 0 ==> r.value == IntParam(d.n)
    ensures r.Err? ==> r.error == NewRequestException(Text(InvalidDateMessage)) && r.error.ErrorCode() == 400
    ensures r.Ok? ==> UrlSafe(ParamText(r.value))
  {
    match d
    case DateTimeArg(dt) =>
      IsoDateRoundTrip(dt);
      Ok(TextParam(IsoDate(dt)))
    case IntArg(n) =>
      if n < 0 then Ok(IntParam(n)) else Err(NewRequestException(Text(InvalidDateMessage)))
    case _ =>
      Err(NewRequestException(Text(InvalidDateMessage)))
  }

  /** What `_format_query_date_for_url` does as written: its datetime branch
      reads the undefined name `datetime_param` and so raises NameError. */
  datatype AsWrittenFormat =
    | Formatted(value: ParamValue)
    | RaisesRequestException(error: RequestException)
    | RaisesNameError(name: string)

  function FormatQueryDateAsWritten(d: DateArg): (r: AsWrittenFormat)
    ensures r.RaisesNameError? <==> d.DateTimeArg?
    ensures r.RaisesNameError? ==> r.name == "datetime_param"
    ensures !d.DateTimeArg? ==> (r.Formatted? <==> FormatQueryDate(d).Ok?)
    ensures !d.DateTimeArg? && r.Formatted? ==> FormatQueryDate(d) == Ok(r.value)
    ensures !d.DateTimeArg? && r.RaisesRequestException? ==> FormatQueryDate(d) == Err(r.error)
  {
    match d
    case DateTimeArg(_) => RaisesNameError("datetime_param")
    case IntArg(n) =>
      if n < 0 then Formatted(IntParam(n)) else RaisesRequestException(NewRequestException(Text(InvalidDateMessage)))
    case _ =>
      RaisesRequestException(NewRequestException(Text(InvalidDateMessage)))
  }

  /** Every datetime argument makes the code as written raise NameError where
      the ISO date was meant to be returned. */
  lemma DateTimeBranchRaisesNameError(dt: ValidDateTime)
    ensures FormatQueryDateAsWritten(DateTimeArg(dt)) == RaisesNameError("datetime_param")
    ensures FormatQueryDate(DateTimeArg(dt)) == Ok(TextParam(IsoDate(dt)))
  {
  }

  /** Query parameters as a Python dict, in insertion order, with `None` and
      `{}` both as the empty sequence. Insertion order is what dicts keep from
      Python 3.7 on; on older interpreters `urlencode` may walk the keys in
      another order, which this sequence does not represent. */
  type Params = seq<(string, ParamValue)>

  function Keys(p: Params): (ks: seq<string>)
    ensures |ks| == |p| && forall i :: 0 <= i < |p| ==> ks[i] == p[i].0
  {
    if p == [] then [] else [p[0].0] + Keys(p[1..])
  }

  /** The value stored under `key`, if any. */
  function Lookup(p: Params, key: string): Option<ParamValue> {
    if p == [] then None else if p[0].0 == key then Some(p[0].1) else Lookup(p[1..], key)
  }

  predicate ParamsUrlSafe(p: Params) {
    forall i :: 0 <= i < |p| ==> UrlSafe(p[i].0) && UrlSafe(ParamText(p[i].1))
  }

  /** One optional date entry: absent for a falsy argument, `key` with the
      formatted date for a truthy one, the refusal otherwise. */
  function DateEntry(key: string, d: DateArg): (r: Result<Params, RequestException>)
    ensures !Truthy(d) ==> r == Ok([])
    ensures Truthy(d) ==> (r.Ok? <==> FormatQueryDate(d).Ok?)
    ensures Truthy(d) && r.Ok? ==> r.value == [(key, FormatQueryDate(d).value)]
    ensures r.Err? ==> Truthy(d) && r == Err(FormatQueryDate(d).error)
    ensures r.Ok? && UrlSafe(key) ==> ParamsUrlSafe(r.value)
  {
    if Truthy(d) then
      match FormatQueryDate(d)
      case Ok(v) => Ok([(key, v)])
      case Err(e) => Err(e)
    else Ok([])
  }

  /** The parameters of `get_points`: `{'date': ...}` when the query date is
      truthy, none otherwise (so a date of 0 sends no parameter). */
  function PointsParams(d: DateArg): (r: Result<Params, RequestException>)
    ensures !Truthy(d) ==> r == Ok([])
    ensures Truthy(d) ==> (r.Ok? <==> FormatQueryDate(d).Ok?)
    ensures Truthy(d) && r.Ok? ==> r.value == [("date", FormatQueryDate(d).value)]
    ensures r.Err? ==> Truthy(d) && r == Err(FormatQueryDate(d).error)
    ensures r.Err? ==> r.error.ErrorCode() == 400
    ensures r.Ok? ==> ParamsUrlSafe(r.value)
  {
    DateEntry("date", d)
  }

  /** The parameters of `get_series`: a `start_date` entry and an `end_date`
      entry, each present exactly when its argument is truthy; a truthy
      argument that is neither a datetime nor a negative int is refused. */
  function SeriesParams(start: DateArg, end: DateArg): (r: Result<Params, RequestException>)
    ensures r.Ok? <==>
      (Truthy(start) ==> FormatQueryDate(start).Ok?) && (Truthy(end) ==> FormatQueryDate(end).Ok?)
    ensures r.Err? ==> r.error == NewRequestException(Text(InvalidDateMessage))
    ensures r.Ok? ==> ParamsUrlSafe(r.value)
  {
    var s := DateEntry("start_date", start);
    var e := DateEntry("end_date", end);
    if s.Err? then Err(s.error)
    else if e.Err? then Err(e.error)
    else Ok(s.value + e.value)
  }

  /** The series parameters hold `start_date` and `end_date` in that order,
      each present exactly when its argument is truthy, with the formatted
      date as its value. */
  lemma SeriesParamsEntries(start: DateArg, end: DateArg)
    requires SeriesParams(start, end).Ok?
    ensures Keys(SeriesParams(start, end).value) ==
      (if Truthy(start) then ["start_date"] else []) + (if Truthy(end) then ["end_date"] else [])
    ensures Lookup(SeriesParams(start, end).value, "start_date") ==
      (if Truthy(start) then Some(FormatQueryDate(start).value) else None)
    ensures Lookup(SeriesParams(start, end).value, "end_date") ==
      (if Truthy(end) then Some(FormatQueryDate(end).value) else None)
  {
    var a := DateEntry("start_date", start).value;
    var b := DateEntry("end_date", end).value;
    assert SeriesParams(start, end).value == a + b;
    assert Keys(a) == if Truthy(start) then ["start_date"] else [];
    assert Keys(b) == if Truthy(end) then ["end_date"] else [];
    StartEndEntries(a, b);
  }

  /** Keys and lookups of an optional `start_date` entry followed by an
      optional `end_date` entry. */
  lemma StartEndEntries(a: Params, b: Params)
    requires |a| <= 1 && |b| <= 1
    requires a != [] ==> a[0].0 == "start_date"
    requires b != [] ==> b[0].0 == "end_date"
    ensures Keys(a + b) == Keys(a) + Keys(b)
    ensures Lookup(a + b, "start_date") == (if a == [] then None else Some(a[0].1))
    ensures Lookup(a + b, "end_date") == (if b == [] then None else Some(b[0].1))
  {
    if a != [] {
      assert (a + b)[1..] == b;
    }
  }

  /** `get_series` builds its parameter dict key by key. */
  method BuildSeriesParams(start: DateArg, end: DateArg) returns (r: Result<Params, RequestException>)
    ensures r == SeriesParams(start, end)
  {
    var params: Params := [];
    if Truthy(start) {
      var v := FormatQueryDate(start);
      if v.Err? {
        return Err(v.error);
      }
      params := params + [("start_date", v.value)];
    }
    assert params == if Truthy(start) then [("start_date", FormatQueryDate(start).value)] else [];
    if Truthy(end) {
      var v := FormatQueryDate(end);
      if v.Err? {
        return Err(v.error);
      }
      params := params + [("end_date", v.value)];
    }
    assert params == (if Truthy(start) then [("start_date", FormatQueryDate(start).value)] else []) +
                     (if Truthy(end) then [("end_date", FormatQueryDate(end).value)] else []);
    r := Ok(params);
  }

  // ---------------------------------------------------------------------------
  // query string

  /** The `key=value` items urlencode produces, in order. */
  function EncodedPairs(p: Params): (items: seq<string>)
    ensures |items| == |p|
    ensures forall i :: 0 <= i < |p| ==> items[i] == p[i].0 + "=" + ParamText(p[i].1)
  {
    if p == [] then [] else [p[0].0 + "=" + ParamText(p[0].1)] + EncodedPairs(p[1..])
  }

  /** `urlencode(params)` for keys and values made of characters it leaves
      unescaped: `key=value` items joined by '&'. */
  function EncodeQuery(p: Params): (q: string)
    requires ParamsUrlSafe(p)
    ensures p == [] <==> q == ""
    ensures forall j :: 0 <= j < |q| ==> UrlSafeChar(q[j]) || q[j] in "=&"
  {
    var ok := (c: char) => UrlSafeChar(c) || c in "=&";
    var items := EncodedPairs(p);
    forall i, j | 0 <= i < |items| && 0 <= j < |items[i]| ensures ok(items[i][j]) {
      var k, v := p[i].0, ParamText(p[i].1);
      assert items[i] == k + "=" + v;
      if j < |k| {
        assert items[i][j] == k[j];
      } else if j > |k| {
        assert items[i][j] == v[j - |k| - 1];
      }
    }
    JoinKeeps(items, '&', ok);
    assert p != [] ==> |items[0]| > 0 && |Join(items, '&')| >= |items[0]|;
    Join(items, '&')
  }

  /** Takes a query string apart into its `[key, value]` items. */
  function DecodeQuery(q: string): seq<seq<string>> {
    var items := Split(q, '&');
    seq(|items|, i requires 0 <= i < |items| => Split(items[i], '='))
  }

  lemma UrlSafeHasNo(s: string, c: char)
    requires UrlSafe(s) && !UrlSafeChar(c)
    ensures c !in s
  {
    assert forall i :: 0 <= i < |s| ==> s[i] != c;
  }

  /** Decoding an encoded query gives back every key and rendered value, in order. */
  lemma {:induction false} QueryRoundTrip(p: Params)
    requires p != [] && ParamsUrlSafe(p)
    ensures DecodeQuery(EncodeQuery(p)) == seq(|p|, i requires 0 <= i < |p| => [p[i].0, ParamText(p[i].1)])
  {
    var items := EncodedPairs(p);
    forall i | 0 <= i < |items|
      ensures '&' !in items[i]
      ensures Split(items[i], '=') == [p[i].0, ParamText(p[i].1)]
    {
      UrlSafeHasNo(p[i].0, '&');
      UrlSafeHasNo(p[i].0, '=');
      UrlSafeHasNo(ParamText(p[i].1), '&');
      UrlSafeHasNo(ParamText(p[i].1), '=');
      SplitJoin([p[i].0, ParamText(p[i].1)], '=');
    }
    SplitJoin(items, '&');
  }

  // ---------------------------------------------------------------------------
  // URL

  /** `_format_list_for_url`: `','.join(items)`. */
  function FormatListForUrl(items: seq<string>): (s: string)
    ensures |items| == 1 ==> s == items[0]
  {
    Join(items, ',')
  }

  /** A non-empty list of identifiers free of ',' reads back from its URL form. */
  lemma ListRoundTrip(items: seq<string>)
    requires items != [] && forall i :: 0 <= i < |items| ==> ',' !in items[i]
    ensures Split(FormatListForUrl(items), ',') == items
  {
    SplitJoin(items, ',');
  }

  /** Python truthiness of the `query_keys` argument (None or a list). */
  predicate HasKeys(keys: Option<seq<string>>) {
    keys.Some? && keys.value != []
  }

  /** The segments `_build_url_path` puts between slashes. */
  function PathSegments(typePath: MaybeText, symbols: seq<string>, queryTypePath: string,
                        queryKeys: Option<seq<string>>): seq<string>
  {
    [Render(typePath), FormatListForUrl(symbols), queryTypePath] +
    (if HasKeys(queryKeys) then [FormatListForUrl(queryKeys.value)] else [])
  }

  /** `_build_url_path`: `<type>/<symbols>/<endpoint>`, then `/<keys>` only when
      the keys are truthy. */
  function BuildUrlPath(typePath: MaybeText, symbols: seq<string>, queryTypePath: string,
                        queryKeys: Option<seq<string>>): (path: string)
    ensures path == Join(PathSegments(typePath, symbols, queryTypePath, queryKeys), '/')
  {
    var a, b, c := Render(typePath), FormatListForUrl(symbols), queryTypePath;
    var head := a + "/" + b + "/" + c;
    assert [a, b, c][1..] == [b, c] && [b, c][1..] == [c];
    if HasKeys(queryKeys) then
      var d := FormatListForUrl(queryKeys.value);
      assert [a, b, c] + [d] == [a, b, c, d];
      assert [a, b, c, d][1..] == [b, c, d] && [b, c, d][1..] == [c, d] && [c, d][1..] == [d];
      assert Join([c, d], '/') == c + "/" + d;
      assert Join([b, c, d], '/') == b + "/" + c + "/" + d;
      head + "/" + d
    else
      assert [a, b, c] + [] == [a, b, c];
      head
  }

  /** Identifiers that can stand in a path segment list without being split. */
  predicate PathItems(items: seq<string>) {
    forall i :: 0 <= i < |items| ==> ',' !in items[i] && '/' !in items[i] && '?' !in items[i]
  }

  lemma {:induction false} ListHasNo(items: seq<string>, c: char)
    requires PathItems(items) && (c == '/' || c == '?')
    ensures c !in FormatListForUrl(items)
  {
    var s := FormatListForUrl(items);
    JoinKeeps(items, ',', (x: char) => x != c);
    assert forall j :: 0 <= j < |s| ==> s[j] != c;
  }

  /** A path read back at '/' and then at ',' gives the type path, the symbols,
      the endpoint and (when sent) the keys, as long as symbols and keys are
      non-empty lists and no identifier holds ',', '/' or '?'. */
  lemma {:induction false} PathRoundTrip(typePath: string, symbols: seq<string>, queryTypePath: string,
                                         queryKeys: Option<seq<string>>)
    requires '/' !in typePath && '/' !in queryTypePath
    requires symbols != [] && PathItems(symbols)
    requires queryKeys.Some? ==> PathItems(queryKeys.value)
    ensures var segs := Split(BuildUrlPath(Text(typePath), symbols, queryTypePath, queryKeys), '/');
      segs == PathSegments(Text(typePath), symbols, queryTypePath, queryKeys) &&
      |segs| == (if HasKeys(queryKeys) then 4 else 3) &&
      segs[0] == typePath && Split(segs[1], ',') == symbols && segs[2] == queryTypePath &&
      (HasKeys(queryKeys) ==> Split(segs[3], ',') == queryKeys.value)
  {
    var segs := PathSegments(Text(typePath), symbols, queryTypePath, queryKeys);
    ListHasNo(symbols, '/');
    ListRoundTrip(symbols);
    if HasKeys(queryKeys) {
      ListHasNo(queryKeys.value, '/');
      ListRoundTrip(queryKeys.value);
    }
    SplitJoin(segs, '/');
  }

  /** The full URL `_get_data` requests: `BASE_URL/API_VERSION/path`, followed
      by '?' and the encoded parameters only when there are parameters. */
  function RequestUrl(path: string, params: Params): (url: string)
    requires ParamsUrlSafe(params)
    ensures |url| >= |ApiRoot| && url[..|ApiRoot|] == ApiRoot
  {
    ApiRoot + path + (if params == [] then "" else "?" + EncodeQuery(params))
  }

  /** A URL read back after the API root and at '?' gives the path and, exactly
      when there were parameters, the encoded query. */
  lemma {:induction false} UrlRoundTrip(path: string, params: Params)
    requires ParamsUrlSafe(params) && '?' !in path
    ensures var url := RequestUrl(path, params);
      Split(url[|ApiRoot|..], '?') == [path] + (if params == [] then [] else [EncodeQuery(params)])
  {
    var url := RequestUrl(path, params);
    if params == [] {
      assert url[|ApiRoot|..] == path;
      SplitSepFree(path, '?');
    } else {
      var q := EncodeQuery(params);
      assert forall j :: 0 <= j < |q| ==> q[j] != '?';
      assert url[|ApiRoot|..] == path + ['?'] + q;
      SplitAfterPiece(path, q, '?');
      SplitSepFree(q, '?');
    }
  }

  /** `_get_data` assembles the URL step by step, then sends it with the
      client's header and classifies what comes back. */
  method GetData<P>(client: SecurityClient, urlPath: string, params: Params, server: Request -> Transport<P>)
    returns (sent: Request, out: Outcome<P>)
    requires ParamsUrlSafe(params)
    ensures sent == Request(RequestUrl(urlPath, params), client.Header())
    ensures out == ParseResponse(server(sent))
  {
    var url := BaseUrl + "/" + ApiVersion + "/" + urlPath;
    assert url == ApiRoot + urlPath;
    if params != [] {
      var encoded := EncodeQuery(params);
      url := url + "?" + encoded;
    }
    assert url == RequestUrl(urlPath, params);
    sent := Request(url, client.Header());
    out := ParseResponse(server(sent));
  }

  // ---------------------------------------------------------------------------
  // response classification

  /** The `meta` object of a decoded response; `None` marks a missing key. */
  datatype Meta = Meta(status: Option<string>, errorCode: Option<int>, errorMessage: Option<MaybeText>)

  /** A decoded JSON document: its `meta` object (if present) and the rest. */
  datatype Document<P> = Document(meta: Option<Meta>, response: P)

  /** What the transport gives back: a decoded body, or an HTTPError with its code. */
  datatype Transport<P> = Delivered(document: Document<P>) | HttpError(code: int)

  /** Python errors that escape `_parse_response` other than the client's own. */
  datatype Crash =
    | ResponseUnbound(httpCode: int)   // UnboundLocalError: `response` never assigned
    | MissingKey(key: string)          // KeyError on the decoded document

  datatype Outcome<P> = Returned(document: Document<P>) | Raised(error: RequestException) | Crashed(crash: Crash)

  predicate DeclaresError<P>(doc: Document<P>) {
    doc.meta.Some? && doc.meta.value.status == Some("error")
  }

  /** A document whose `meta.status` says error and carries both code and message. */
  predicate CompleteError<P>(doc: Document<P>) {
    DeclaresError(doc) && doc.meta.value.errorCode.Some? && doc.meta.value.errorMessage.Some?
  }

  /** A document the client hands back: `meta.status` present and either not
      "error", or "error" with a code other than 400 and 414. */
  predicate Passes<P>(doc: Document<P>) {
    doc.meta.Some? && doc.meta.value.status.Some? &&
    (DeclaresError(doc) ==> CompleteError(doc) && doc.meta.value.errorCode.value !in {400, 414})
  }

  /** `_parse_response`: HTTP 404 and 401 become the not-found and unauthorized
      exceptions; a delivered document declaring error 400 or 414 becomes the
      malformed-request or too-long exception with the server's message; every
      other delivered document is returned unchanged. Any other HTTP error
      leaves `response` unbound; a delivered document lacking `meta`, its
      `status`, or (when it declares an error) its `error_code` or
      `error_message` raises KeyError on that key. */
  function ParseResponse<P>(t: Transport<P>): (out: Outcome<P>)
    ensures (out.Raised? && out.error.ErrorCode() == 404) <==> t == HttpError(404)
    ensures (out.Raised? && out.error.ErrorCode() == 401) <==> t == HttpError(401)
    ensures t.HttpError? && t.code != 404 && t.code != 401 ==> out == Crashed(ResponseUnbound(t.code))
    ensures (out.Raised? && out.error.ErrorCode() == 400) <==>
      t.Delivered? && CompleteError(t.document) && t.document.meta.value.errorCode == Some(400)
    ensures (out.Raised? && out.error.ErrorCode() == 414) <==>
      t.Delivered? && CompleteError(t.document) && t.document.meta.value.errorCode == Some(414)
    ensures out.Raised? && t.Delivered? ==> out.error.ErrorMessage() == t.document.meta.value.errorMessage.value
    ensures out.Returned? <==> t.Delivered? && Passes(t.document)
    ensures out.Returned? ==> out.document == t.document
    ensures t.Delivered? && out.Crashed? ==>
      out.crash.MissingKey? && out.crash.key in {"meta", "status", "error_code", "error_message"}
    ensures t.Delivered? && t.document.meta.None? ==> out == Crashed(MissingKey("meta"))
    ensures t.Delivered? && t.document.meta.Some? && t.document.meta.value.status.None? ==>
      out == Crashed(MissingKey("status"))
    ensures t.Delivered? && DeclaresError(t.document) && t.document.meta.value.errorCode.None? ==>
      out == Crashed(MissingKey("error_code"))
  {
    match t
    case HttpError(code) =>
      if code == 404 then Raised(NewUrlNotFoundException())
      else if code == 401 then Raised(NewUnauthorizedException())
      else Crashed(ResponseUnbound(code))
    case Delivered(doc) =>
      if doc.meta.None? then Crashed(MissingKey("meta"))
      else if doc.meta.value.status.None? then Crashed(MissingKey("status"))
      else if doc.meta.value.status != Some("error") then Returned(doc)
      else if doc.meta.value.errorCode.None? then Crashed(MissingKey("error_code"))
      else if doc.meta.value.errorMessage.None? then Crashed(MissingKey("error_message"))
      else if doc.meta.value.errorCode.value == 400 then
        Raised(NewRequestException(doc.meta.value.errorMessage.value))
      else if doc.meta.value.errorCode.value == 414 then
        Raised(NewTooLongException(doc.meta.value.errorMessage.value))
      else Returned(doc)
  }

  // ---------------------------------------------------------------------------
  // endpoints

  /** `get_points`: path `<type>/<symbols>/points[/<codes>]`; a truthy date is
      validated before anything is sent, and a refused one sends nothing. */
  method GetPoints<P>(client: SecurityClient, symbols: seq<string>, codes: Option<seq<string>>,
                      queryDate: DateArg, server: Request -> Transport<P>)
    returns (sent: Option<Request>, out: Outcome<P>)
    ensures PointsParams(queryDate).Err? ==> sent == None && out == Raised(PointsParams(queryDate).error)
    ensures PointsParams(queryDate).Ok? ==>
      sent == Some(Request(RequestUrl(BuildUrlPath(client.securityTypePath, symbols, "points", codes),
                                      PointsParams(queryDate).value), client.Header())) &&
      out == ParseResponse(server(sent.value))
  {
    var urlPath := BuildUrlPath(client.securityTypePath, symbols, "points", codes);
    var params := PointsParams(queryDate);
    if params.Err? {
      return None, Raised(params.error);
    }
    var request;
    request, out := GetData(client, urlPath, params.value, server);
    sent := Some(request);
  }

  /** `get_series`: path `<type>/<symbols>/series[/<codes>]` with the start and
      end dates that are truthy; a refused date sends nothing. */
  method GetSeries<P>(client: SecurityClient, symbols: seq<string>, codes: Option<seq<string>>,
                      start: DateArg, end: DateArg, server: Request -> Transport<P>)
    returns (sent: Option<Request>, out: Outcome<P>)
    ensures SeriesParams(start, end).Err? ==> sent == None && out == Raised(SeriesParams(start, end).error)
    ensures SeriesParams(start, end).Ok? ==>
      sent == Some(Request(RequestUrl(BuildUrlPath(client.securityTypePath, symbols, "series", codes),
                                      SeriesParams(start, end).value), client.Header())) &&
      out == ParseResponse(server(sent.value))
  {
    var urlPath := BuildUrlPath(client.securityTypePath, symbols, "series", codes);
    var params := BuildSeriesParams(start, end);
    if params.Err? {
      return None, Raised(params.error);
    }
    var request;
    request, out := GetData(client, urlPath, params.value, server);
    sent := Some(request);
  }

  /** `get_info`: path `<type>/<symbols>/info[/<fields>]`, never any parameter. */
  method GetInfo<P>(client: SecurityClient, symbols: seq<string>, fields: seq<string>,
                    server: Request -> Transport<P>)
    returns (sent: Request, out: Outcome<P>)
    ensures sent == Request(ApiRoot + BuildUrlPath(client.securityTypePath, symbols, "info", Some(fields)),
                            client.Header())
    ensures out == ParseResponse(server(sent))
  {
    var urlPath := BuildUrlPath(client.securityTypePath, symbols, "info", Some(fields));
    sent, out := GetData(client, urlPath, [], server);
  }
}
