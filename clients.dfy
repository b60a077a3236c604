/** The concrete clients (pycharts/clients.py): each supplies its security type
    path; the indicator client also drops the calculation codes from the point
    and series queries. */
module Clients {
  import opened Wrappers
  import opened Strings
  import opened Exceptions
  import opened Base

  const CompanyPath: string := "companies"
  const MutualFundPath: string := "mutual_funds"
  const IndicatorPath: string := "indicators"

  /** `CompanyClient(api_key)`. */
  function CompanyClient(apiKey: string): (c: SecurityClient)
    ensures c.securityTypePath == Text("companies")
    ensures c.Header() == NewSecurityClient(apiKey).Header()
  {
    SecurityClient(Text(CompanyPath), apiKey)
  }

  /** `MutualFundClient(api_key)`. */
  function MutualFundClient(apiKey: string): (c: SecurityClient)
    ensures c.securityTypePath == Text("mutual_funds")
    ensures c.Header() == NewSecurityClient(apiKey).Header()
  {
    SecurityClient(Text(MutualFundPath), apiKey)
  }

  /** `IndicatorClient(api_key)`. */
  function IndicatorClient(apiKey: string): (c: SecurityClient)
    ensures c.securityTypePath == Text("indicators")
    ensures c.Header() == NewSecurityClient(apiKey).Header()
  {
    SecurityClient(Text(IndicatorPath), apiKey)
  }

  /** The company and mutual fund clients build the same request apart from the
      first path segment: they inherit everything else from the base client. */
  lemma InheritedClientsDifferOnlyInPath(apiKey: string, symbols: seq<string>, queryTypePath: string,
                                         queryKeys: Option<seq<string>>)
    ensures var company := BuildUrlPath(CompanyClient(apiKey).securityTypePath, symbols, queryTypePath, queryKeys);
      var fund := BuildUrlPath(MutualFundClient(apiKey).securityTypePath, symbols, queryTypePath, queryKeys);
      company[..|CompanyPath|] == CompanyPath && fund[..|MutualFundPath|] == MutualFundPath &&
      company[|CompanyPath|..] == fund[|MutualFundPath|..]
    ensures CompanyClient(apiKey).Header() == MutualFundClient(apiKey).Header()
  {
  }

  /** Without keys, a path is just type, symbols and endpoint. */
  lemma NoKeysPath(typePath: string, symbols: seq<string>, endpoint: string)
    ensures BuildUrlPath(Text(typePath), symbols, endpoint, None) ==
      typePath + "/" + FormatListForUrl(symbols) + "/" + endpoint
  {
  }

  /** `IndicatorClient.get_points`: forwards `None` codes, so the path is
      `indicators/<symbols>/points` with no codes segment. */
  method IndicatorGetPoints<P>(client: SecurityClient, symbols: seq<string>, queryDate: DateArg,
                               server: Request -> Transport<P>)
    returns (sent: Option<Request>, out: Outcome<P>)
    requires client.securityTypePath == Text(IndicatorPath)
    ensures PointsParams(queryDate).Err? ==> sent == None && out == Raised(PointsParams(queryDate).error)
    ensures PointsParams(queryDate).Ok? ==>
      sent == Some(Request(RequestUrl(IndicatorPath + "/" + FormatListForUrl(symbols) + "/points",
                                      PointsParams(queryDate).value), client.Header())) &&
      out == ParseResponse(server(sent.value))
  {
    NoKeysPath(IndicatorPath, symbols, "points");
    assert IndicatorPath + "/" + FormatListForUrl(symbols) + "/" + "points" ==
           IndicatorPath + "/" + FormatListForUrl(symbols) + "/points";
    sent, out := GetPoints(client, symbols, None, queryDate, server);
  }

  /** `IndicatorClient.get_series`: forwards `None` codes and the same start and
      end dates, so the path is `indicators/<symbols>/series`. */
  method IndicatorGetSeries<P>(client: SecurityClient, symbols: seq<string>, start: DateArg, end: DateArg,
                               server: Request -> Transport<P>)
    returns (sent: Option<Request>, out: Outcome<P>)
    requires client.securityTypePath == Text(IndicatorPath)
    ensures SeriesParams(start, end).Err? ==> sent == None && out == Raised(SeriesParams(start, end).error)
    ensures SeriesParams(start, end).Ok? ==>
      sent == Some(Request(RequestUrl(IndicatorPath + "/" + FormatListForUrl(symbols) + "/series",
                                      SeriesParams(start, end).value), client.Header())) &&
      out == ParseResponse(server(sent.value))
  {
    NoKeysPath(IndicatorPath, symbols, "series");
    assert IndicatorPath + "/" + FormatListForUrl(symbols) + "/" + "series" ==
           IndicatorPath + "/" + FormatListForUrl(symbols) + "/series";
    sent, out := GetSeries(client, symbols, None, start, end, server);
  }

  /** An indicator path reads back as exactly three segments: type, symbols and
      endpoint, with the symbols recoverable at ','. */
  lemma {:induction false} IndicatorPathHasNoCodes(symbols: seq<string>, endpoint: string)
    requires symbols != [] && PathItems(symbols) && '/' !in endpoint
    ensures var path := BuildUrlPath(Text(IndicatorPath), symbols, endpoint, None);
      path == IndicatorPath + "/" + FormatListForUrl(symbols) + "/" + endpoint &&
      Split(path, '/') == [IndicatorPath, FormatListForUrl(symbols), endpoint] &&
      Split(FormatListForUrl(symbols), ',') == symbols
  {
    NoKeysPath(IndicatorPath, symbols, endpoint);
    PathRoundTrip(IndicatorPath, symbols, endpoint, None);
  }
}
