# pycharts request builder and error mapper, in Dafny

pycharts is a small Python client for the YCharts REST API. Its logic is
limited to three things. It builds a request URL for companies, mutual funds
or economic indicators, from a list of symbols, a list of calculation or info
codes and optional date parameters. It validates and formats those dates. It
maps the HTTP outcome and the `meta` object of the decoded JSON answer either
to one of its exceptions or to the document, which it hands back unchanged.
This project models that logic in six modules:

- `Strings` (strings.dfy): `','.join`, `str.split` and `str(int)`, each proved against its inverse.
- `Exceptions` (exceptions.dfy): the exception hierarchy the client raises.
- `Errors` (errors.py's parallel hierarchy, errors.dfy): the client never raises these.
- `Base` (base.dfy): `BaseSecurityClient`. This covers path and query assembly, date formatting, `_get_data` and `_parse_response`.
- `Clients` (clients.dfy): the company, mutual fund and indicator clients.
- `ClientTests` (client_tests.dfy): the scenarios of `tests.py`, stated as methods and verified against a mock server function.

The HTTP transport is a function parameter `server: Request -> Transport<P>`.
It answers either with a decoded `Document` or with an `HttpError(code)`.
The payload of a document is a type parameter `P` that the model never
inspects. `GetPoints`, `GetSeries` and the two indicator overrides return
`sent: Option<Request>`, which is `None` when date validation raised before any
request was made. `GetInfo` takes no dates, always sends its request and
returns it as a plain `Request`.

## Model

| member | source | states |
|---|---|---|
| Strings.Join | pycharts/base.py:166 | `','.join`: an empty list gives the empty text and a one-item list gives that item; `SplitJoin` and `JoinSplit` state that it is the inverse of `Split` |
| Strings.SplitJoin | pycharts/base.py:165-166 | splitting `sep.join(items)` at `sep` gives the items back, for a non-empty list whose items do not contain `sep` |
| Strings.JoinSplit | pycharts/base.py:165-166 | joining the pieces of any split gives the original text, so join and split are inverses |
| Strings.ParseIntToDecimal | pycharts/base.py:115 | `str(i)` of every integer parses back to `i`; this is how a negative-int date reaches the query string |
| Strings.DecimalOfDigits | pycharts/base.py:158 | the zero-padded `w`-digit rendering of `n < 10^w` reads back as `n` |
| Base.FormatListForUrl | pycharts/base.py:165-166 | a one-element list yields that element unchanged |
| Base.ListRoundTrip | pycharts/base.py:165-166 | the comma-joined list reads back at ',' as the same identifiers in the same order |
| Base.BuildUrlPath | pycharts/base.py:145-154 | the path is the '/'-join of type path, joined symbols and endpoint, plus the joined keys exactly when the keys are truthy |
| Base.PathRoundTrip | pycharts/base.py:145-154 | the path splits back at '/' into 3 segments without keys or 4 with keys: type path, symbols, endpoint, keys |
| Base.IsoDate | pycharts/base.py:158 | the date part of `isoformat()` is ten characters `YYYY-MM-DD`: digits everywhere except the two dashes at positions 4 and 7 |
| Base.IsoDateRoundTrip | pycharts/base.py:157-158 | the ISO date of a datetime has 10 characters, no time of day, and parses back to its year, month and day |
| Base.FormatQueryDate | pycharts/base.py:156-163 | succeeds exactly for a datetime or a negative int. A datetime gives its YYYY-MM-DD date and a negative int passes through unchanged. Any other value raises PyChartsRequestException with code 400 and the fixed message. Every result is URL-safe |
| Base.FormatQueryDateAsWritten | pycharts/base.py:156-163 | as written, the function raises NameError naming `datetime_param` exactly for datetimes. On every other input it returns the same value, or raises the same exception, as `FormatQueryDate` |
| Base.DateTimeBranchRaisesNameError | pycharts/base.py:158 | for every datetime, the code as written raises NameError where the ISO date is returned |
| Base.PointsParams | pycharts/base.py:53-56 | sends no parameter for a falsy date (including 0). Otherwise sends exactly `date` with the formatted value, or raises the very exception `FormatQueryDate` raises (code 400) |
| Base.DateEntry | pycharts/base.py:83-87 | one `if date: params[key] = ...` step: no entry for a falsy date, `key` with the formatted date for a valid one, and otherwise the exception `FormatQueryDate` raises |
| Base.SeriesParams | pycharts/base.py:83-87 | succeeds exactly when each truthy date is valid; an invalid truthy date raises the 400 exception with the fixed message; every entry is URL-safe |
| Base.SeriesParamsEntries | pycharts/base.py:83-87 | `start_date` and `end_date` are each present exactly when their argument is truthy, in that order, with the formatted values |
| Base.BuildSeriesParams | pycharts/base.py:83-87 | building the dict key by key yields `SeriesParams` |
| Base.EncodeQuery | pycharts/base.py:115 | the query is empty exactly when there are no parameters, and consists only of unreserved characters, `=` and `&` |
| Base.QueryRoundTrip | pycharts/base.py:115 | the encoded query decodes back to every key and rendered value, in order |
| Base.RequestUrl | pycharts/base.py:113-116 | every URL starts with `https://ycharts.com/api/v3/` |
| Base.UrlRoundTrip | pycharts/base.py:113-116 | after the API root, the URL splits at '?' into the path alone when there are no parameters, or into the path and the encoded query otherwise |
| Base.GetData | pycharts/base.py:112-121 | the URL assembled step by step equals `RequestUrl`. The request carries the client's header, and the outcome is `ParseResponse` of the server's answer |
| Base.ParseResponse | pycharts/base.py:123-143 | HTTP 404 raises not-found and HTTP 401 raises unauthorized (iff). Any other HTTP error leaves `response` unbound. A payload error 400 or 414 raises the request or too-long exception with the server's message (iff). Otherwise the document is returned unchanged, iff its meta passes. A delivered document missing `meta`, `status`, or for an error `error_code` or `error_message`, ends in a KeyError on that key |
| Base.NewSecurityClient | pycharts/base.py:24-31 | the base class has no type path (`None`); the API key goes into the `X-YCHARTSAUTHORIZATION` header |
| Base.GetPoints | pycharts/base.py:33-58 | a refused date sends nothing and raises. Otherwise it sends `<type>/<symbols>/points[/<codes>]` with the points parameters and classifies the answer |
| Base.GetSeries | pycharts/base.py:60-89 | a refused date sends nothing and raises. Otherwise it sends `<type>/<symbols>/series[/<codes>]` with the series parameters and classifies the answer |
| Base.GetInfo | pycharts/base.py:91-109 | sends `<type>/<symbols>/info[/<fields>]` with no query string and classifies the answer |
| Exceptions.NewRequestException | pycharts/exceptions.py:2-6 | code 400; the message is as given, `''` by default |
| Exceptions.NewUrlNotFoundException | pycharts/exceptions.py:12-16 | code 404 with the fixed message `URL not found.` |
| Exceptions.NewUnauthorizedException | pycharts/exceptions.py:19-23 | code 401 with the fixed message `Invalid or Missing API Key.` |
| Exceptions.NewTooLongException | pycharts/exceptions.py:26-30 | code 414; the message is as given, `None` by default |
| Exceptions.RequestException.ToString | pycharts/exceptions.py:8-9 | renders `<message> code:<code>` for every class: the message is the prefix, and the last three characters parse back to the code |
| Exceptions.HandlersCatch | pycharts/exceptions.py:12-26 | a handler for the base class catches all four kinds; a handler for a subclass catches exactly that subclass |
| Exceptions.CodeDeterminesClass | pycharts/exceptions.py:2-30 | two exceptions have the same code iff they are of the same class |
| Exceptions.NotFoundRendering | pycharts/exceptions.py:8-16 | the not-found exception renders as `URL not found. code:404` |
| Errors.NewRequestError | pycharts/errors.py:2-6 | code 400; the message is as given, `None` by default |
| Errors.NewUrlNotFoundError | pycharts/errors.py:12-16 | code 404 with the message `URL not found` |
| Errors.NewUnauthorizedError | pycharts/errors.py:19-23 | code 401 with the message `Invalid or Missing API Key` |
| Errors.NewTooLongError | pycharts/errors.py:26-30 | code 414; the message is as given |
| Errors.RequestError.ToString | pycharts/errors.py:8-9 | renders `<message>: <code>` for every class, and both parts can be read back |
| Errors.DefaultErrorRendering | pycharts/errors.py:4-9 | the default base error renders as `None: 400` |
| Clients.CompanyClient | pycharts/clients.py:4-6 | type path `companies`; the header is the base client's |
| Clients.MutualFundClient | pycharts/clients.py:9-11 | type path `mutual_funds`; the header is the base client's |
| Clients.IndicatorClient | pycharts/clients.py:14-16 | type path `indicators`; the header is the base client's |
| Clients.InheritedClientsDifferOnlyInPath | pycharts/clients.py:4-11 | company and mutual fund requests agree on everything after the type path, and on the header |
| Clients.IndicatorGetPoints | pycharts/clients.py:18-19 | the path is `indicators/<symbols>/points`, with no codes segment; the parameters and classification are those of `get_points` |
| Clients.IndicatorGetSeries | pycharts/clients.py:21-22 | the path is `indicators/<symbols>/series`, with no codes segment; the same start and end dates are passed through |
| Clients.IndicatorPathHasNoCodes | pycharts/clients.py:18-22 | an indicator path splits into exactly the three segments type, symbols and endpoint |
| ClientTests.PointsRequestUrl | tests.py:15 | `get_points(['AAPL'], ['price'])` on a company client requests `https://ycharts.com/api/v3/companies/AAPL/points/price` |
| ClientTests.SeriesRequestUrl | tests.py:38 | a series query starting `datetime(2016, 9, 10)` sends `start_date=2016-09-10` to the URL the mock server answers |
| ClientTests.MockServer | tests.py:12-82 | the three success URLs answer with an `ok` meta, the `TOOMANY` URL with the 414 error meta and its message; any other URL ends in a KeyError, as the mock's table lookup does |
| ClientTests.TestSuccessfulPointRequest | tests.py:93-106 | `get_points(['AAPL'], ['price'])` sends the points URL with the API key header and returns the server's document unchanged |
| ClientTests.TestSuccessfulSeriesRequest | tests.py:108-124 | the series query from 2016-09-10 sends the URL with `start_date=2016-09-10` and returns the server's document unchanged. This holds for the corrected date formatting; as written the call raises NameError (see Findings) |
| ClientTests.TestSuccessfulInfoRequest | tests.py:126-139 | `get_info(['AAPL'], ['name'])` sends the info URL and returns the server's document unchanged |
| ClientTests.TestRaises400 | tests.py:146-152 | `get_points('AAPL', 'price', query_date=45)` sends nothing and raises an exception caught as `PyChartsRequestException`, with code 400 |
| ClientTests.TestRaises414 | tests.py:154-160 | `get_info(['TOOMANY'], ['name'])` raises the too-long exception with the server's message, caught as `PyChartsRequestTooLongException`, with code 414 |

## Left out

- Base.SeriesParamsEntries: the model assumes dicts keep insertion order, as they do from Python 3.7 on. On Python 2.7 and 3.2–3.5, which `setup.py` declares, the order of `start_date` and `end_date` in the query string is unspecified, so the promised order holds only on 3.7 and later.
- Network I/O (`Request`, `urlopen`, `HTTPError`) is replaced by the `server` function parameter. Timeouts, retries and connection failures other than an HTTP error code are not modelled.
- `json.loads` is not modelled. A delivered body is already a `Document`. A body that is not JSON, or a `meta` that is not an object, is not represented. `meta.status` is a string, and `meta.error_code` is an integer, when present.
- Base.EncodeQuery: the percent-encoding done by `urlencode` is not modelled. The function requires every key and value to consist of unreserved characters. `FormatQueryDate` proves this for every value the client ever encodes, and the three keys are unreserved constants.
- A bare string passed where a list is expected is not coerced. `','.join` joins its characters, so callers pass it as a list of one-character strings. `ClientTests.TestRaises400` shows this for the `get_points('AAPL', 'price', query_date=45)` call of `tests.py`.
- The time zone of a datetime is not modelled. It affects only the part of `isoformat()` after the 'T', which is dropped.
- Python 2/3 import selection, packaging (`setup.py`) and the mocking machinery of `tests.py` are not part of this model.
- An HTTP error other than 401 and 404 is not mapped to any exception of the library. The handler at `pycharts/base.py:126-130` only handles 401 and 404, so `response` stays unbound and `json.loads(response)` raises UnboundLocalError. The model keeps this as `Crashed(ResponseUnbound(code))` and invents no mapping, although a malformed-request error was probably meant.
- Whitespace is not removed from the URL. `_get_data` (`pycharts/base.py:112-118`) sends symbols and codes exactly as given, and so does the model.
- Listing, filters, resampling, aggregation, dividends, splits and spinoffs are described for the API. They do not occur in the client code modelled here, so they are not modelled.

## Findings

| source | as written | input that shows it | evidently intended | confidence | as-written member | corrected member |
|---|---|---|---|---|---|---|
| pycharts/base.py:158 | the datetime branch returns `datetime_param.isoformat().split('T')[0]`, but `datetime_param` is undefined, so it raises NameError | `get_series(['AAPL'], ['price'], query_start_date=datetime.datetime(2016, 9, 10))` | return `query_date.isoformat().split('T')[0]`, i.e. `2016-09-10`, the value in the URL `tests.py` expects | high; not executed | Base.FormatQueryDateAsWritten | Base.FormatQueryDate |
