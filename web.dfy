/**
 * The outside world the clients talk to. The HTTP transport, the HTML parser and
 * the regular-expression engine are not modelled; together they are a `Net`: a
 * server that answers each request, an XPath evaluator over a page's text and a
 * regular-expression search over a page's text. Every operation that talks to
 * the server also reports the requests it sent, in order.
 */
module Web {
  import opened Py

  /** A request as the clients issue it: a GET to a URL, or a form-encoded POST. */
  datatype Request = Get(url: string) | Post(url: string, form: seq<(string, string)>)

  /** The final response after redirects: status, reason, resolved URL and body text. */
  datatype Response = Response(status: int, reason: string, url: string, text: string)
  {
    /** `requests.Response.ok`: false exactly for the 4xx and 5xx status codes. */
    predicate Ok()
    {
      !(400 <= status < 600)
    }
  }

  datatype Net = Net(
    respond: Request -> Response,
    /** `html.fromstring(text).xpath(path)`, reduced to the strings the clients read
        (text nodes, or the `value` of the selected elements). */
    xpath: (string, string) -> seq<string>,
    /** `re.search(pattern, text).group(1)`, or `None` when nothing matches. */
    search: (string, string) -> Option<string>)

  /** What an operation returned or raised, and the requests it sent on the way. */
  datatype Run<+T> = Run(result: Result<T>, sent: seq<Request>)

  /** The cookie jar, exported and imported as a plain name-to-value map. */
  type Cookies = map<string, string>
}
