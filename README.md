# Asynchronous XML-RPC client: endpoint, dispatch, request and unwrap

A Dafny model of the deterministic core of Tornado's `AsyncXMLRPClient`
(`tornado/xmlrpc.py`). It is an XML-RPC client in which every remote call
takes a callback and returns at once. The model covers four parts:

- **Endpoint construction.** The scheme is split off with `urllib.splittype`.
  Any scheme other than `http` or `https` (in any letter case) is refused with
  `IOError("unsupported XML-RPC protocol")`. The host and handler are split
  off with `urllib.splithost`, and an empty handler becomes `/RPC2`. The stored
  URI is `scheme + "://" + host + handler`. The class `AsyncXMLRPClient` has
  the three fields the constructor assigns step by step. The static method
  `Open` performs the scheme check, so a refused URI never allocates a client.
  `ParseEndpoint` is the pure function that specifies the result.
- **Dotted method names.** `Dispatcher` is the immutable `_Dispatcher`: a
  name plus the send function it is bound to. `Attr` is attribute access and
  `Call` is invocation. The lemmas show that a chain `s1 ... sn` from the
  client reaches the client's request function with the method name
  `".".join([s1, ..., sn])`.
- **Request record.** `Request` is what `__request` hands to the HTTP
  client: a POST of the encoded body to the stored URI, one `Content-Length`
  header, a 60-second timeout, and the callback that the fetch's completion
  feeds (through the continuation that parses the response). `DecimalString`
  models Python's `str()` on the body length. `DecimalValue` reads it back,
  so the contract can say that the header declares the body's exact length.
- **Response unwrap.** `Parse` replaces a decoded tuple of length exactly
  one by its element and returns any other tuple unchanged.

Modules: `Wrappers` (Option, Result), `UrlSplit` (the two urllib helpers),
`Decimal` (decimal rendering and its reading), `Xmlrpc` (the client).

Behaviour of the code worth knowing, which the model follows:

- No `/` is inserted between host and handler. When a host is found, the
  handler keeps whatever `splithost` left after it, which starts with `/` or
  `?`, or is `/RPC2` when nothing was left.
- A URI such as `http:example.com` has a scheme but no `//`. `splithost` then
  finds no host, so the host is Python's `None`, the whole remainder becomes
  the handler, and `"%s" % None` yields the stored URI
  `http://Noneexample.com` (`AcceptsWithoutHost`).
- The scheme is stored lower-cased: `HTTP://h/x` is accepted and stored as
  `http://h/x`.

## Model

| member | source | states |
|---|---|---|
| `UrlSplit.RunUntil` | tornado/xmlrpc.py:48-51 | the result is the length of the longest prefix free of the stop characters: every character before it is not a stop, and the character at it is a stop (or the input ends) |
| `UrlSplit.SplitType` | tornado/xmlrpc.py:48 | with no scheme, the rest is the whole input; with a scheme, the input is a non-empty run free of `/` and `:`, then `:`, then the rest, and the scheme is that run lower-cased |
| `UrlSplit.SplitTypeFinds` | tornado/xmlrpc.py:48 | conversely, every input made of a scheme text, `:` and a rest yields exactly that scheme (lower-cased) and rest |
| `UrlSplit.SplitTypeNeedsColon` | tornado/xmlrpc.py:48 | an input with no `:` has no scheme and is returned whole |
| `UrlSplit.SplitHost` | tornado/xmlrpc.py:51 | a host is found exactly when the input starts with `//`; then the input is `//` + host + path, the host has no `/` or `?`, and the path is empty or starts with `/` or `?`; otherwise the path is the whole input |
| `UrlSplit.SplitHostFinds` | tornado/xmlrpc.py:51 | conversely, `//` + host + path with such a host and path splits into exactly that host and path |
| `Decimal.DecimalString` | tornado/xmlrpc.py:73 | `str(n)` is a non-empty string of decimal digits with no leading zero |
| `Decimal.DecimalRoundTrip` | tornado/xmlrpc.py:73 | reading back `str(n)` as a decimal gives n |
| `Decimal.DecimalStringInjective` | tornado/xmlrpc.py:73 | different lengths give different `Content-Length` values |
| `Xmlrpc.ParseEndpoint` | tornado/xmlrpc.py:46-55 | construction fails exactly when the split-off scheme is not `http`/`https` (absent included), with the IOError message; on success the host is splithost's, the handler is never empty, is exactly `/RPC2` when splithost's path is empty and equals that path otherwise, and the URI is scheme + `://` + host + handler |
| `Xmlrpc.AcceptsHostAndPath` | tornado/xmlrpc.py:48-55 | `scheme://host path` with an http/https scheme in any case is accepted, storing that host, the path or `/RPC2` if it is empty, and the lower-cased canonical URI |
| `Xmlrpc.AcceptsWithoutHost` | tornado/xmlrpc.py:48-55 | a supported scheme followed by `:` and a non-empty remainder not starting with `//` is accepted with no host, the remainder as handler, and `None` rendered into the URI |
| `Xmlrpc.RejectsOtherScheme` | tornado/xmlrpc.py:48-50 | any other scheme, in any case, raises the unsupported-protocol IOError whatever follows it |
| `Xmlrpc.RejectsMissingScheme` | tornado/xmlrpc.py:48-50 | a URI without `:` raises the unsupported-protocol IOError |
| `Xmlrpc.StoredUriReparses` | tornado/xmlrpc.py:55 | when a host was found, constructing a client from the stored URI gives back the same host, handler and URI |
| `Xmlrpc.AsyncXMLRPClient.constructor` | tornado/xmlrpc.py:49-55 | given a scheme that passed the check (http or https): host and handler are splithost's, the handler is replaced by `/RPC2` when empty, and the URI is scheme + `://` + host + handler without an added slash |
| `Xmlrpc.AsyncXMLRPClient.Open` | tornado/xmlrpc.py:46-50 | an unsupported scheme returns the IOError and allocates nothing; otherwise a fresh client whose fields are ParseEndpoint's |
| `Xmlrpc.BuildRequest` | tornado/xmlrpc.py:73-75 | a POST to the stored URI with the encoded body, timeout 60, and a single `Content-Length` header equal to `str(len(body))`, which therefore reads back as the body's length |
| `Xmlrpc.Request` | tornado/xmlrpc.py:68-78 | the request handed to the fetch is exactly BuildRequest's for the encoding of (params, methodname): that body posted to the stored URI with its length declared and the 60-second timeout, together with the callback the completion feeds |
| `Xmlrpc.Sender` | tornado/xmlrpc.py:68-82 | the bound request function `self.__request`: every call of it with a name, callback and arguments is the request for that call on the given URI |
| `Xmlrpc.AsyncXMLRPClient.GetAttr` | tornado/xmlrpc.py:80-82 | the first attribute access yields a dispatcher named exactly the attribute, whose send is the client's bound request function on the stored URI |
| `Xmlrpc.Attr` | tornado/xmlrpc.py:88-89 | attribute access on a dispatcher yields one with name old + `.` + segment and the same send function |
| `Xmlrpc.Call` | tornado/xmlrpc.py:90-91 | invocation passes the accumulated name, the callback and the arguments in order to send and returns its result |
| `Xmlrpc.AccessJoins` | tornado/xmlrpc.py:84-89 | a chain of accesses s1 ... sn on a dispatcher named n keeps send and accumulates the name `".".join([n, s1, ..., sn])` |
| `Xmlrpc.CallForwardsJoinedName` | tornado/xmlrpc.py:80-91 | calling `client.s1. ... .sn(callback, *args)` issues exactly the request for method `".".join([s1, ..., sn])` with that callback and those arguments |
| `Xmlrpc.Parse` | tornado/xmlrpc.py:63-66 | the result is the sole element exactly when the decoded tuple has length one, and it always stands for exactly the decoded values |
| `Xmlrpc.ParseOfItems` | tornado/xmlrpc.py:63-66 | unwrapping loses nothing; a one-element tuple is the only result that is never passed through |

## Left out

- XML-RPC encoding (`xmlrpclib.dumps`) is foreign code. It is the parameter `dumps`, and the body it produces is an opaque byte sequence. `dumps` is a total function, so the error `xmlrpclib.dumps` raises synchronously (a `None` argument under `allow_none=0`, a value it cannot marshal) is not modelled.
- XML-RPC decoding (`xmlrpclib.getparser`, `feed`, `close`) is foreign code. `Parse` starts from the decoded tuple. The Fault that the decoder raises for a fault response is the decoder's behaviour and is not modelled.
- `AsyncHTTPClient().fetch` and the continuation `lambda r: callback(self.__parse(r))` are asynchronous network I/O. The model stops at the `Fetch` record of request and callback. The source checks no transport error before parsing; no such check is added.
- Inheritance from `xmlrpclib.ServerProxy` and Python's dynamic `__getattr__` lookup are not modelled. Attribute access is the explicit operation `Attr`, or `GetAttr` on the client, and a chain of accesses is `Access`.
- `HTTPRequest` fields other than URL, method, headers, body and request timeout keep Tornado's defaults and are not modelled.
- `UrlSplit.SplitHost`: the `/` that newer Python 2.7 releases put in front of a path that does not start with one (a path starting with `?`) is not modelled. The regular expression's handling of newline characters (`.` not matching a newline, `$` matching before a final one) is not modelled either.
- `UrlSplit.SplitType`: lower-casing is the ASCII mapping of `str.lower` in the C locale. Locale-dependent and Unicode case mappings are not modelled.
