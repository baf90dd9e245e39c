/**
 * The pieces of net/http the core touches: header maps shared by reference,
 * requests (mutated in place by reqURL), the connection's response writer,
 * and the synthetic request that a workflow Task sends.
 */
module Http {

  /** http.Header: canonical key to its list of values. */
  type Header = map<string, seq<string>>

  /** http.Header.Get: the first value of the key, or "" when there is none. */
  function HeaderGet(h: Header, key: string): (v: string)
    ensures key !in h ==> v == ""
    ensures key in h && |h[key]| > 0 ==> v == h[key][0]
    ensures key in h && |h[key]| == 0 ==> v == ""
  {
    if key in h && |h[key]| > 0 then h[key][0] else ""
  }

  /** The map after http.Header.Add: the value appended to the key's list, other keys untouched. */
  function AddValue(h: Header, key: string, value: string): (r: Header)
    ensures key in r && |r[key]| == (if key in h then |h[key]| else 0) + 1
    ensures r[key][|r[key]| - 1] == value
    ensures key in h ==> r[key][..|h[key]|] == h[key]
    ensures forall k :: k != key ==> (k in r <==> k in h)
    ensures forall k :: k != key && k in h ==> r[k] == h[k]
  {
    var prior := if key in h then h[key] else [];
    assert (prior + [value])[..|prior|] == prior;
    h[key := prior + [value]]
  }

  /**
   * A Go http.Header value.  Go maps are references: every writer that was
   * handed the same map sees the others' changes, so the map is an object.
   */
  class HeaderMap {
    var m: Header

    constructor(m0: Header)
      ensures m == m0
    {
      m := m0;
    }

    /** http.Header.Add: append a value to the key's list. */
    method Add(key: string, value: string)
      modifies this
      ensures m == AddValue(old(m), key, value)
    {
      m := AddValue(m, key, value);
    }

    /** http.Header.Set: replace the key's list by the single value. */
    method Set(key: string, value: string)
      modifies this
      ensures m == old(m)[key := [value]]
    {
      m := m[key := [value]];
    }
  }

  /** The url.URL fields that reqURL reads and writes. */
  datatype Url = Url(scheme: string, host: string, path: string, rawQuery: string)

  /** url.URL.String, reduced to scheme://host/path?query. */
  function UrlString(u: Url): string {
    u.scheme + "://" + u.host + u.path + (if u.rawQuery == "" then "" else "?" + u.rawQuery)
  }

  /**
   * The URL after reqURL's defaulting: an empty scheme becomes http, or https
   * on a TLS connection, and an empty host becomes the request's Host.
   */
  function DefaultUrl(u: Url, tls: bool, host: string): (d: Url)
    ensures d.scheme != ""
    ensures u.scheme != "" ==> d.scheme == u.scheme
    ensures u.scheme == "" ==> (d.scheme == "https" <==> tls)
    ensures d.host == (if u.host == "" then host else u.host)
    ensures d.path == u.path && d.rawQuery == u.rawQuery
  {
    Url(if u.scheme != "" then u.scheme else if tls then "https" else "http",
        if u.host == "" then host else u.host,
        u.path, u.rawQuery)
  }

  /** The http.Request fields the core reads or writes. */
  class Request {
    var httpMethod: string
    var url: Url
    var proto: string
    var protoMajor: int
    var protoMinor: int
    var header: HeaderMap
    var body: string
    var contentLength: int
    var host: string
    var tls: bool          // whether req.TLS is non-nil
    var remoteAddr: string
    var requestUri: string

    /** &http.Request{}: every field at its zero value; a nil Header reads as empty. */
    constructor()
      ensures httpMethod == "" && url == Url("", "", "", "") && proto == "" && protoMajor == 0 && protoMinor == 0
      ensures fresh(header) && header.m == map[]
      ensures body == "" && contentLength == 0 && host == "" && !tls && remoteAddr == "" && requestUri == ""
    {
      httpMethod, url, proto, protoMajor, protoMinor := "", Url("", "", "", ""), "", 0, 0;
      header := new HeaderMap(map[]);
      body, contentLength, host, tls, remoteAddr, requestUri := "", 0, "", false, "", "";
    }
  }

  /**
   * reqURL: default the scheme and host of req.URL in place, and return the
   * URL's text.
   */
  method ReqURL(req: Request) returns (s: string)
    modifies req`url
    ensures req.url == DefaultUrl(old(req.url), req.tls, req.host)
    ensures s == UrlString(req.url)
    ensures req.httpMethod == old(req.httpMethod) && req.header == old(req.header) && req.body == old(req.body)
    ensures req.host == old(req.host) && req.tls == old(req.tls)
  {
    if req.url.scheme == "" {
      if !req.tls {
        req.url := req.url.(scheme := "http");
      } else {
        req.url := req.url.(scheme := "https");
      }
    }
    if req.url.host == "" {
      req.url := req.url.(host := req.host);
    }
    s := UrlString(req.url);
  }

  /**
   * getHTTPRequest: a POST over HTTP/1.1 whose body is the payload, with no
   * host, no TLS and no connection metadata.  Strings stand for Go's byte
   * strings, so the content length is the payload's length.
   */
  method GetHTTPRequest(payload: string) returns (req: Request)
    ensures fresh(req) && fresh(req.header) && req.header.m == map[]
    ensures req.httpMethod == "POST" && req.url == Url("", "", "", "")
    ensures req.proto == "HTTP/1.1" && req.protoMajor == 1 && req.protoMinor == 1
    ensures req.body == payload && req.contentLength == |payload|
    ensures req.host == "" && !req.tls && req.remoteAddr == "" && req.requestUri == ""
  {
    req := new Request();
    req.httpMethod := "POST";
    req.url := Url("", "", "", "");
    req.proto := "HTTP/1.1";
    req.protoMajor := 1;
    req.protoMinor := 1;
    req.body := payload;
    req.contentLength := |payload|;
    req.host := "";
    req.remoteAddr := "";
    req.requestUri := "";
    req.tls := false;
  }

  /**
   * The connection's response writer (gin's c.Writer).  The status stays
   * pending until the first body byte is written; writing a status after that
   * has no effect on what the client receives.
   */
  class Transport {
    const header: HeaderMap
    var status: int
    var written: bool
    var body: string

    constructor(header: HeaderMap)
      ensures this.header == header && status == 200 && !written && body == ""
    {
      this.header := header;
      status, written, body := 200, false, "";
    }

    method WriteHeader(code: int)
      modifies this
      ensures status == (if code > 0 && !old(written) then code else old(status))
      ensures written == old(written) && body == old(body)
    {
      if code > 0 && !written {
        status := code;
      }
    }

    method Write(b: string)
      modifies this
      ensures written && body == old(body) + b && status == old(status)
    {
      written := true;
      body := body + b;
    }
  }
}
