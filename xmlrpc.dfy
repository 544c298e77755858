/**
 * The asynchronous XML-RPC client of tornado/xmlrpc.py: an endpoint taken
 * apart once at construction, a dispatcher that accumulates dotted method
 * names, the HTTP request built for each call, and the single-element
 * unwrap of a decoded response.
 *
 * The XML-RPC codec (xmlrpclib.dumps and its parser) is foreign code: the
 * encoder is a parameter and the decoder's output is an input. The HTTP
 * fetch is I/O: the model stops at the request and callback handed to it.
 */
module Xmlrpc {
  import opened Wrappers
  import opened UrlSplit
  import opened Decimal

  newtype byte = x: int | 0 <= x < 256

  /** xmlrpclib.dumps(params, methodname, encoding=None, allow_none=0). */
  type Dumps<!A> = (seq<A>, string) -> seq<byte>

  datatype Error = IOError(message: string)

  const UnsupportedProtocol: string := "unsupported XML-RPC protocol"
  const DefaultHandler: string := "/RPC2"
  const RequestTimeout: nat := 60

  predicate SupportedScheme(scheme: Option<string>)
  {
    scheme == Some("http") || scheme == Some("https")
  }

  /** The "%s" rendering of the host: Python formats None as "None". */
  function Render(host: Option<string>): string
  {
    match host
    case Some(h) => h
    case None => "None"
  }

  // ---------------------------------------------------------------------
  // Endpoint

  /** The three fields the constructor sets. */
  datatype Endpoint = Endpoint(host: Option<string>, handler: string, uri: string)

  /**
   * What constructing a client from uri yields: the error it raises, or the
   * fields it stores.
   */
  function ParseEndpoint(uri: string): (r: Result<Endpoint, Error>)
    ensures r.Err? <==> !SupportedScheme(SplitType(uri).scheme)
    ensures r.Err? ==> r.error == IOError(UnsupportedProtocol)
    ensures r.Ok? ==> r.value.host == SplitHost(SplitType(uri).rest).host
    ensures r.Ok? ==> r.value.handler != []
    ensures r.Ok? ==> SplitHost(SplitType(uri).rest).path == [] ==> r.value.handler == DefaultHandler
    ensures r.Ok? ==> SplitHost(SplitType(uri).rest).path != [] ==>
                      r.value.handler == SplitHost(SplitType(uri).rest).path
    ensures r.Ok? ==> r.value.uri ==
                      SplitType(uri).scheme.value + "://" + Render(r.value.host) + r.value.handler
  {
    var t := SplitType(uri);
    if !SupportedScheme(t.scheme) then
      Err(IOError(UnsupportedProtocol))
    else
      var h := SplitHost(t.rest);
      var handler := if h.path == [] then DefaultHandler else h.path;
      Ok(Endpoint(h.host, handler, t.scheme.value + "://" + Render(h.host) + handler))
  }

  /**
   * A URI whose scheme is http or https in any case, followed by "//", a
   * host and a path, is accepted; the scheme is stored lower-cased and an
   * empty path becomes "/RPC2".
   */
  lemma AcceptsHostAndPath(scheme: string, host: string, path: string)
    requires SchemeText(scheme) && (Lower(scheme) == "http" || Lower(scheme) == "https")
    requires HostText(host) && PathText(path)
    ensures var handler := if path == [] then DefaultHandler else path;
      ParseEndpoint(scheme + "://" + host + path) ==
      Ok(Endpoint(Some(host), handler, Lower(scheme) + "://" + host + handler))
  {
    var rest := "//" + host + path;
    assert scheme + "://" + host + path == scheme + ":" + rest;
    SplitTypeFinds(scheme, rest);
    SplitHostFinds(host, path);
  }

  /**
   * A supported scheme followed by ':' and something other than "//" is
   * accepted with no host: the host renders as "None" in the URI and the
   * whole remainder is the handler.
   */
  lemma AcceptsWithoutHost(scheme: string, rest: string)
    requires SchemeText(scheme) && (Lower(scheme) == "http" || Lower(scheme) == "https")
    requires rest != [] && !(|rest| >= 2 && rest[..2] == "//")
    ensures ParseEndpoint(scheme + ":" + rest) ==
            Ok(Endpoint(None, rest, Lower(scheme) + "://None" + rest))
  {
    SplitTypeFinds(scheme, rest);
    assert SplitHost(rest) == HostSplit(None, rest);
    assert Lower(scheme) + "://" + Render(None) + rest == Lower(scheme) + "://None" + rest;
  }

  /** A scheme other than http and https, in any case, is refused. */
  lemma RejectsOtherScheme(scheme: string, rest: string)
    requires SchemeText(scheme) && Lower(scheme) != "http" && Lower(scheme) != "https"
    ensures ParseEndpoint(scheme + ":" + rest) == Err(IOError(UnsupportedProtocol))
  {
    SplitTypeFinds(scheme, rest);
  }

  /** A URI with no ':' has no scheme and is refused. */
  lemma RejectsMissingScheme(uri: string)
    requires forall i :: 0 <= i < |uri| ==> uri[i] != ':'
    ensures ParseEndpoint(uri) == Err(IOError(UnsupportedProtocol))
  {
    SplitTypeNeedsColon(uri);
  }

  /** When there is a host, the stored URI is canonical: parsing it again gives the same fields. */
  lemma StoredUriReparses(uri: string)
    requires ParseEndpoint(uri).Ok? && ParseEndpoint(uri).value.host.Some?
    ensures ParseEndpoint(ParseEndpoint(uri).value.uri) == ParseEndpoint(uri)
  {
    var e := ParseEndpoint(uri).value;
    var scheme := SplitType(uri).scheme.value;
    assert Lower(scheme) == scheme;
    assert PathText(e.handler) by {
      var path := SplitHost(SplitType(uri).rest).path;
      if path == [] {
        assert e.handler[0] == '/';
      }
    }
    AcceptsHostAndPath(scheme, e.host.value, e.handler);
  }

  // ---------------------------------------------------------------------
  // Request

  /** The fields of tornado's HTTPRequest that the client sets. */
  datatype HttpRequest = HttpRequest(
    url: string,
    verb: string,
    headers: map<string, string>,
    body: seq<byte>,
    requestTimeout: nat)

  /** What is handed to AsyncHTTPClient.fetch: the request, and the callback its completion feeds. */
  datatype Fetch<C> = Fetch(request: HttpRequest, callback: C)

  /**
   * The request for an encoded body: a POST of exactly that body to uri,
   * whose only header declares the body's length, with a 60-second timeout.
   */
  function BuildRequest(uri: string, postdata: seq<byte>): (r: HttpRequest)
    ensures r.verb == "POST" && r.url == uri && r.body == postdata
    ensures r.requestTimeout == RequestTimeout
    ensures r.headers.Keys == {"Content-Length"}
    ensures r.headers["Content-Length"] == DecimalString(|postdata|)
    ensures ParseDecimal(r.headers["Content-Length"]) == Some(|r.body|)
  {
    var header := map["Content-Length" := DecimalString(|postdata|)];
    DecimalRoundTrip(|postdata|);
    HttpRequest(uri, "POST", header, postdata, RequestTimeout)
  }

  /**
   * The client's request function on the stored uri: encode the call and
   * hand its request to the transport with the callback the fetch's
   * completion feeds.
   */
  function Request<C, A>(uri: string, dumps: Dumps<A>, methodname: string, callback: C, params: seq<A>)
    : (f: Fetch<C>)
    ensures f.request == BuildRequest(uri, dumps(params, methodname))
    ensures f.request.body == dumps(params, methodname)
    ensures f.request.url == uri && f.request.verb == "POST"
    ensures "Content-Length" in f.request.headers
    ensures ParseDecimal(f.request.headers["Content-Length"]) == Some(|dumps(params, methodname)|)
    ensures f.callback == callback
  {
    Fetch(BuildRequest(uri, dumps(params, methodname)), callback)
  }

  /** The client's bound request function: every call of it is Request on uri. */
  function Sender<C(!new), A(!new)>(uri: string, dumps: Dumps<A>): (send: (string, C, seq<A>) -> Fetch<C>)
    ensures forall m, cb, p :: send(m, cb, p) == Request(uri, dumps, m, cb, p)
  {
    (m: string, cb: C, p: seq<A>) => Request(uri, dumps, m, cb, p)
  }

  // ---------------------------------------------------------------------
  // Dispatcher

  /** A method name and the function that calls it. */
  datatype Dispatcher<!C, !A, R> = Dispatcher(send: (string, C, seq<A>) -> R, name: string)

  /** Attribute access on a dispatcher: one more dotted segment, same send function. */
  function Attr<C, A, R>(d: Dispatcher<C, A, R>, segment: string): (e: Dispatcher<C, A, R>)
    ensures e.send == d.send
    ensures e.name == d.name + "." + segment
  {
    Dispatcher(d.send, d.name + "." + segment)
  }

  /** Calling a dispatcher: forward its name, the callback and the arguments to send. */
  function Call<C, A, R>(d: Dispatcher<C, A, R>, callback: C, args: seq<A>): (r: R)
    ensures r == d.send(d.name, callback, args)
  {
    d.send(d.name, callback, args)
  }

  /** A chain of attribute accesses, left to right. */
  function Access<C, A, R>(d: Dispatcher<C, A, R>, segments: seq<string>): Dispatcher<C, A, R>
    decreases |segments|
  {
    if segments == [] then d else Access(Attr(d, segments[0]), segments[1..])
  }

  /** sep.join(parts) */
  function Join(sep: string, parts: seq<string>): string
  {
    if parts == [] then [] else if |parts| == 1 then parts[0] else parts[0] + sep + Join(sep, parts[1..])
  }

  lemma JoinGlued(sep: string, x: string, y: string, rest: seq<string>)
    ensures Join(sep, [x + sep + y] + rest) == x + sep + Join(sep, [y] + rest)
  {
    if rest != [] {
      assert ([x + sep + y] + rest)[1..] == rest;
      assert ([y] + rest)[1..] == rest;
    }
  }

  /** Accessing s1 ... sn on a dispatcher named n yields the name n.s1. ... .sn and keeps send. */
  lemma {:induction false} AccessJoins<C, A, R>(d: Dispatcher<C, A, R>, segments: seq<string>)
    ensures Access(d, segments).send == d.send
    ensures Access(d, segments).name == Join(".", [d.name] + segments)
    decreases |segments|
  {
    if segments != [] {
      var s, more := segments[0], segments[1..];
      AccessJoins(Attr(d, s), more);
      JoinGlued(".", d.name, s, more);
      assert [s] + more == segments;
      assert ([d.name] + segments)[1..] == segments;
    }
  }

  // ---------------------------------------------------------------------
  // Response

  /** __parse's result: the sole element, or the decoded tuple itself. */
  datatype Unwrapped<V> = Element(value: V) | Tuple(items: seq<V>)

  /** The decoded values a result stands for. */
  function Items<V>(r: Unwrapped<V>): seq<V>
  {
    match r
    case Element(v) => [v]
    case Tuple(items) => items
  }

  /** A decoded tuple of length one is replaced by its element; any other is returned as it is. */
  function Parse<V>(decoded: seq<V>): (r: Unwrapped<V>)
    ensures r.Element? <==> |decoded| == 1
    ensures Items(r) == decoded
  {
    if |decoded| == 1 then Element(decoded[0]) else Tuple(decoded)
  }

  /** Parse loses nothing, and a one-element tuple is the one result it never passes through. */
  lemma ParseOfItems<V>(r: Unwrapped<V>)
    ensures Parse(Items(r)) == r <==> !(r.Tuple? && |r.items| == 1)
  {
  }

  // ---------------------------------------------------------------------
  // Client

  class AsyncXMLRPClient {
    var host: Option<string>
    var handler: string
    var uri: string

    function Fields(): Endpoint
      reads this
    {
      Endpoint(host, handler, uri)
    }

    /** Everything the constructor does once the scheme has been accepted. */
    constructor (scheme: string, rest: string)
      requires scheme == "http" || scheme == "https"
      ensures host == SplitHost(rest).host
      ensures handler == if SplitHost(rest).path == [] then DefaultHandler else SplitHost(rest).path
      ensures uri == scheme + "://" + Render(host) + handler
    {
      var split := SplitHost(rest);
      host, handler := split.host, split.path;
      new;
      if handler == [] {
        handler := DefaultHandler;
      }
      uri := scheme + "://" + Render(host) + handler;
    }

    /**
     * Constructing a client from uri: an unsupported scheme raises before
     * any field is set, otherwise the new client holds ParseEndpoint's fields.
     */
    static method Open(uri: string) returns (r: Result<AsyncXMLRPClient, Error>)
      ensures r.Err? <==> ParseEndpoint(uri).Err?
      ensures r.Err? ==> r.error == IOError(UnsupportedProtocol)
      ensures r.Ok? ==> fresh(r.value) && r.value.Fields() == ParseEndpoint(uri).value
    {
      var t := SplitType(uri);
      if !SupportedScheme(t.scheme) {
        return Err(IOError(UnsupportedProtocol));
      }
      var client := new AsyncXMLRPClient(t.scheme.value, t.rest);
      return Ok(client);
    }

    /** The first attribute access: a dispatcher named name, bound to this client's request function. */
    function GetAttr<C(!new), A(!new)>(dumps: Dumps<A>, name: string): (d: Dispatcher<C, A, Fetch<C>>)
      reads this
      ensures d.name == name
      ensures d.send == Sender(uri, dumps)
    {
      Dispatcher(Sender(uri, dumps), name)
    }
  }

  /**
   * Calling client.s1.s2 ... .sn(callback, args) issues the request for the
   * method "s1.s2. ... .sn" with that callback and those arguments.
   */
  lemma CallForwardsJoinedName<C(!new), A(!new)>(
    client: AsyncXMLRPClient, dumps: Dumps<A>, first: string, more: seq<string>,
    callback: C, args: seq<A>)
    ensures Call(Access(client.GetAttr(dumps, first), more), callback, args) ==
            Request(client.uri, dumps, Join(".", [first] + more), callback, args)
  {
    AccessJoins(client.GetAttr<C, A>(dumps, first), more);
  }
}
