/** The scenarios of the repository's test suite (tests.py), stated against the
    model: the URLs its mock server answers, the documents handed back, and the
    codes of the exceptions raised. */
module ClientTests {
  import opened Wrappers
  import opened Strings
  import opened Exceptions
  import opened Base
  import opened Clients

  // The URLs the mock server knows, each written as the API root followed by
  // its path so that proofs compare short pieces instead of whole URLs.
  const TestRoot: string := "https://ycharts.com/api/v3/"
  const PointsUrl: string := TestRoot + "companies/AAPL/points/price"
  const SeriesUrl: string := TestRoot + "companies/AAPL/series/price?start_date=2016-09-10"
  const InfoUrl: string := TestRoot + "companies/AAPL/info/name"
  const TooManyUrl: string := TestRoot + "companies/TOOMANY/info/name"

  const TooManyMessage: string := "Too many identifiers. Ensure 100 or less."

  /** The meta object of every successful mock answer. */
  const OkMeta: Meta := Meta(Some("ok"), None, None)

  /** The mock server: the four known URLs answer with their documents. The
      mock of the test suite indexes its table directly, so an unknown URL
      raises KeyError there; no scenario reaches that case, and here it answers
      with a document without `meta`, which the client turns into a KeyError. */
  function MockServer<P>(ok: P, tooMany: P): (server: Request -> Transport<P>)
    ensures forall r: Request :: r.url in {PointsUrl, SeriesUrl, InfoUrl} ==>
      server(r) == Delivered(Document(Some(OkMeta), ok))
    ensures forall r: Request :: r.url == TooManyUrl ==>
      server(r) == Delivered(Document(Some(Meta(Some("error"), Some(414), Some(Text(TooManyMessage)))), tooMany))
    ensures forall r: Request :: r.url !in {PointsUrl, SeriesUrl, InfoUrl, TooManyUrl} ==>
      ParseResponse(server(r)) == Crashed(MissingKey("meta"))
  {
    KnownUrlsDiffer();
    (r: Request) =>
      if r.url in {PointsUrl, SeriesUrl, InfoUrl} then Delivered(Document(Some(OkMeta), ok))
      else if r.url == TooManyUrl then
        Delivered(Document(Some(Meta(Some("error"), Some(414), Some(Text(TooManyMessage)))), tooMany))
      else Delivered(Document(None, ok))
  }

  /** The too-many URL is none of the other three: they differ in the first
      letter of the symbol. */
  lemma KnownUrlsDiffer()
    ensures TooManyUrl !in {PointsUrl, SeriesUrl, InfoUrl}
  {
    var k := |TestRoot| + 10;
    assert TooManyUrl[k] == 'T';
    assert PointsUrl[k] == 'A' && SeriesUrl[k] == 'A' && InfoUrl[k] == 'A';
  }

  lemma ApiRootText()
    ensures ApiRoot == TestRoot
  {
  }

  /** The URL of a parameterless query is the API root followed by the path. */
  lemma BareUrl(path: string)
    ensures RequestUrl(path, []) == ApiRoot + path
  {
  }

  /** The URL of a query with parameters: API root, path, '?', encoded query. */
  lemma QueryUrl(path: string, params: Params)
    requires params != [] && ParamsUrlSafe(params)
    ensures RequestUrl(path, params) == ApiRoot + path + "?" + EncodeQuery(params)
  {
  }

  /** The path of a query for one symbol and one key. */
  lemma OneSymbolPath(typePath: string, symbol: string, endpoint: string, key: string)
    ensures BuildUrlPath(Text(typePath), [symbol], endpoint, Some([key])) ==
      typePath + "/" + symbol + "/" + endpoint + "/" + key
  {
  }

  lemma SeriesPath()
    ensures BuildUrlPath(Text("companies"), ["AAPL"], "series", Some(["price"])) == "companies/AAPL/series/price"
  {
    OneSymbolPath("companies", "AAPL", "series", "price");
  }

  lemma PointsPath()
    ensures BuildUrlPath(Text("companies"), ["AAPL"], "points", Some(["price"])) == "companies/AAPL/points/price"
  {
    OneSymbolPath("companies", "AAPL", "points", "price");
  }

  lemma PointsRequestUrl()
    ensures RequestUrl(BuildUrlPath(Text("companies"), ["AAPL"], "points", Some(["price"])), []) == PointsUrl
  {
    PointsPath();
    ApiRootText();
    BareUrl("companies/AAPL/points/price");
  }

  /** The info URL for one symbol and the `name` field. */
  lemma InfoUrlOf(symbol: string)
    ensures ApiRoot + BuildUrlPath(Text("companies"), [symbol], "info", Some(["name"])) ==
      TestRoot + ("companies/" + symbol + "/info/name")
  {
    OneSymbolPath("companies", symbol, "info", "name");
    ApiRootText();
  }

  lemma InfoRequestUrl()
    ensures ApiRoot + BuildUrlPath(Text("companies"), ["AAPL"], "info", Some(["name"])) == InfoUrl
  {
    InfoUrlOf("AAPL");
  }

  lemma TooManyRequestUrl()
    ensures ApiRoot + BuildUrlPath(Text("companies"), ["TOOMANY"], "info", Some(["name"])) == TooManyUrl
  {
    InfoUrlOf("TOOMANY");
  }

  /** A bare string where a list is expected is joined character by character. */
  lemma BareStringsJoinCharacters()
    ensures FormatListForUrl(["A", "A", "P", "L"]) == "A,A,P,L"
    ensures FormatListForUrl(["p", "r", "i", "c", "e"]) == "p,r,i,c,e"
  {
  }

  const TestStart: ValidDateTime := DateTime(2016, 9, 10, 0, 0, 0, 0)
  const StartParams: Params := [("start_date", TextParam("2016-09-10"))]

  lemma TestStartText()
    ensures FormatQueryDate(DateTimeArg(TestStart)) == Ok(TextParam("2016-09-10"))
  {
    assert Digits(2016, 4) == "2016";
    assert Digits(9, 2) == "09";
    assert Digits(10, 2) == "10";
    assert IsoDate(TestStart) == "2016-09-10";
  }

  lemma SeriesTestParams()
    ensures SeriesParams(DateTimeArg(TestStart), NoDate) == Ok(StartParams)
  {
    TestStartText();
    assert DateEntry("start_date", DateTimeArg(TestStart)) == Ok(StartParams);
    assert DateEntry("end_date", NoDate) == Ok([]);
    assert StartParams + [] == StartParams;
  }

  lemma SeriesTestQuery()
    ensures ParamsUrlSafe(StartParams) && EncodeQuery(StartParams) == "start_date=2016-09-10"
  {
    assert EncodedPairs(StartParams) == ["start_date" + "=" + "2016-09-10"];
    assert "start_date" + "=" + "2016-09-10" == "start_date=2016-09-10";
  }

  lemma SeriesUrlText()
    ensures ApiRoot + "companies/AAPL/series/price" + "?" + "start_date=2016-09-10" == SeriesUrl
  {
    ApiRootText();
    assert "companies/AAPL/series/price" + "?" + "start_date=2016-09-10" ==
      "companies/AAPL/series/price?start_date=2016-09-10";
  }

  lemma SeriesRequestUrl()
    ensures SeriesParams(DateTimeArg(TestStart), NoDate) == Ok(StartParams)
    ensures RequestUrl(BuildUrlPath(Text("companies"), ["AAPL"], "series", Some(["price"])), StartParams) == SeriesUrl
  {
    SeriesTestParams();
    SeriesTestQuery();
    SeriesPath();
    ApiRootText();
    QueryUrl("companies/AAPL/series/price", StartParams);
    SeriesUrlText();
  }

  /** A successful point query hands back the server's document unchanged. */
  method TestSuccessfulPointRequest<P>(ok: P, tooMany: P) returns (sent: Option<Request>, out: Outcome<P>)
    ensures sent == Some(Request(PointsUrl, CompanyClient("api_key").Header()))
    ensures out == Returned(Document(Some(OkMeta), ok))
  {
    var client := CompanyClient("api_key");
    PointsRequestUrl();
    sent, out := GetPoints(client, ["AAPL"], Some(["price"]), NoDate, MockServer(ok, tooMany));
  }

  /** A series query from 2016-09-10 reaches the URL with `start_date=2016-09-10`
      and hands back the server's document unchanged. */
  method TestSuccessfulSeriesRequest<P>(ok: P, tooMany: P) returns (sent: Option<Request>, out: Outcome<P>)
    ensures sent == Some(Request(SeriesUrl, CompanyClient("api_key").Header()))
    ensures out == Returned(Document(Some(OkMeta), ok))
  {
    var client := CompanyClient("api_key");
    SeriesRequestUrl();
    sent, out := GetSeries(client, ["AAPL"], Some(["price"]), DateTimeArg(TestStart), NoDate, MockServer(ok, tooMany));
  }

  /** A successful info query hands back the server's document unchanged. */
  method TestSuccessfulInfoRequest<P>(ok: P, tooMany: P) returns (sent: Request, out: Outcome<P>)
    ensures sent == Request(InfoUrl, CompanyClient("api_key").Header())
    ensures out == Returned(Document(Some(OkMeta), ok))
  {
    var client := CompanyClient("api_key");
    InfoRequestUrl();
    sent, out := GetInfo(client, ["AAPL"], ["name"], MockServer(ok, tooMany));
  }

  /** A point query with the date 45 and bare strings: the strings are joined
      character by character, and the date is refused with code 400 before any
      request is sent; a handler for the base class catches it. */
  method TestRaises400<P>(ok: P, tooMany: P) returns (sent: Option<Request>, out: Outcome<P>)
    ensures sent == None
    ensures out.Raised? && IsInstance(out.error, RequestExceptionClass) && out.error.ErrorCode() == 400
  {
    var client := CompanyClient("api_key");
    BareStringsJoinCharacters();
    sent, out := GetPoints(client, ["A", "A", "P", "L"], Some(["p", "r", "i", "c", "e"]), IntArg(45),
                           MockServer(ok, tooMany));
  }

  /** The server's 414 answer becomes the too-long exception with its message,
      caught by a handler for the too-long class. */
  method TestRaises414<P>(ok: P, tooMany: P) returns (sent: Request, out: Outcome<P>)
    ensures sent.url == TooManyUrl
    ensures out == Raised(TooLongException(Text(TooManyMessage)))
    ensures IsInstance(out.error, TooLongExceptionClass) && out.error.ErrorCode() == 414
  {
    var client := CompanyClient("api_key");
    TooManyRequestUrl();
    sent, out := GetInfo(client, ["TOOMANY"], ["name"], MockServer(ok, tooMany));
  }
}
