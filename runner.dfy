/**
 * The state of dirb_runner in dirb.hpp: the scan configuration, settable
 * field by field, and the queue of paths still to probe.
 */
module Runner {

  /** The request methods of `http::verb`, in declaration order. */
  datatype Verb = Delete | Get | Head | Options | Patch | Post | Put

  /** One entry of the request header multimap: a name and a value. */
  datatype Header = Header(name: string, value: string)

  /** A snapshot of every field of a runner (the two mutexes are not modelled). */
  datatype Fields = Fields(
    baseUrl: string,
    followRedirects: bool,
    headers: multiset<Header>,
    bearerToken: string,
    probeVariations: seq<string>,
    username: string,
    password: string,
    body: string,
    verifyCerts: bool,
    verb: Verb,
    urlQueue: seq<string>,
    doQuit: bool)

  /** The in-class initialisers: empty strings and collections, both flags off, GET. */
  const InitialFields := Fields("", false, multiset{}, "", [], "", "", "", false, Get, [], false)

  class DirbRunner {
    var baseUrl: string
    var followRedirects: bool
    var headers: multiset<Header>
    var bearerToken: string
    var probeVariations: seq<string>
    var username: string
    var password: string
    var body: string
    var verifyCerts: bool
    var verb: Verb
    /** The FIFO of paths; the front is index 0. */
    var urlQueue: seq<string>
    var doQuit: bool

    function State(): Fields
      reads this
    {
      Fields(baseUrl, followRedirects, headers, bearerToken, probeVariations,
             username, password, body, verifyCerts, verb, urlQueue, doQuit)
    }

    constructor ()
      ensures State() == InitialFields
    {
      baseUrl, followRedirects, headers, bearerToken := "", false, multiset{}, "";
      probeVariations, username, password, body := [], "", "", "";
      verifyCerts, verb, urlQueue, doQuit := false, Get, [], false;
    }

    /** True when a base URL has been set to something non-empty. */
    predicate HasBaseUrl()
      reads this
    {
      baseUrl != []
    }

    /** The number of queued paths. */
    function UrlQueueSize(): nat
      reads this
    {
      |urlQueue|
    }

    method SetHeaders(newHeaders: multiset<Header>)
      modifies this
      ensures State() == old(State()).(headers := newHeaders)
    {
      headers := newHeaders;
    }

    /** Adds one entry; an entry with the same name stays (the header map is a multimap). */
    method AddHeader(name: string, value: string)
      modifies this
      ensures State() == old(State()).(headers := old(headers) + multiset{Header(name, value)})
      ensures headers[Header(name, value)] == old(headers)[Header(name, value)] + 1
    {
      headers := headers + multiset{Header(name, value)};
    }

    /** The overload taking a name/value pair. */
    method AddHeaderPair(hv: Header)
      modifies this
      ensures State() == old(State()).(headers := old(headers) + multiset{hv})
      ensures headers[hv] == old(headers)[hv] + 1
    {
      headers := headers + multiset{hv};
    }

    method SetBaseUrl(url: string)
      modifies this
      ensures State() == old(State()).(baseUrl := url)
      ensures HasBaseUrl() <==> url != []
    {
      baseUrl := url;
    }

    method SetUsername(name: string)
      modifies this
      ensures State() == old(State()).(username := name)
    {
      username := name;
    }

    method SetPassword(secret: string)
      modifies this
      ensures State() == old(State()).(password := secret)
    {
      password := secret;
    }

    method SetBody(text: string)
      modifies this
      ensures State() == old(State()).(body := text)
    {
      body := text;
    }

    method SetBearerToken(token: string)
      modifies this
      ensures State() == old(State()).(bearerToken := token)
    {
      bearerToken := token;
    }

    method SetMethod(m: Verb)
      modifies this
      ensures State() == old(State()).(verb := m)
    {
      verb := m;
    }

    method SetVerifyCerts(verify: bool)
      modifies this
      ensures State() == old(State()).(verifyCerts := verify)
    {
      verifyCerts := verify;
    }

    method SetFollowRedirects(follow: bool)
      modifies this
      ensures State() == old(State()).(followRedirects := follow)
    {
      followRedirects := follow;
    }

    method SetProbeVariations(variations: seq<string>)
      modifies this
      ensures State() == old(State()).(probeVariations := variations)
    {
      probeVariations := variations;
    }

    /** Replaces the whole queue. */
    method SetUrlQueue(queue: seq<string>)
      modifies this
      ensures State() == old(State()).(urlQueue := queue)
      ensures UrlQueueSize() == |queue|
    {
      urlQueue := queue;
    }

    /** Appends one path at the back: one more entry, all earlier ones in place. */
    method AddToQueue(url: string)
      modifies this
      ensures State() == old(State()).(urlQueue := old(urlQueue) + [url])
      ensures UrlQueueSize() == old(UrlQueueSize()) + 1
      ensures urlQueue[..old(UrlQueueSize())] == old(urlQueue) && urlQueue[UrlQueueSize() - 1] == url
    {
      urlQueue := urlQueue + [url];
    }

  }
}
