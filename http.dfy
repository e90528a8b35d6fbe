/**
 * The slice of `net/http` the middleware touches: a request's cookies and
 * header, the replies and cookies a handler writes, and the next handler
 * in the chain, which records the header of every request it is given.
 */
module Http {
  import opened Errors

  /** A cookie; `expires` is a Unix time in seconds. */
  datatype Cookie = Cookie(name: string, value: string, path: string, expires: int, secure: bool, httpOnly: bool)

  /** The error `Request.Cookie` returns, its only one. */
  const NoCookie := "http: named cookie not present"

  /** A header: each key with its values in the order they were added. */
  type Header = map<string, seq<string>>

  /** What a handler writes: `responses.JSONError`, `responses.JSONResponse` or `http.Redirect`. */
  datatype Reply =
    | JsonError(message: string, status: int)
    | JsonResponse(message: string, status: int)
    | Redirect(url: string, status: int)

  const StatusOK := 200
  const StatusFound := 302
  const StatusUnauthorized := 401
  const StatusInternalServerError := 500

  /** The position of the first cookie with the name, as `Request.Cookie` finds it. */
  function FindCookie(cookies: seq<Cookie>, name: string): (r: Option<nat>)
    ensures r.Some? ==> r.value < |cookies| && cookies[r.value].name == name
    ensures r.Some? ==> forall j :: 0 <= j < r.value ==> cookies[j].name != name
    ensures r.None? ==> forall j :: 0 <= j < |cookies| ==> cookies[j].name != name
  {
    if cookies == [] then None
    else if cookies[0].name == name then Some(0)
    else
      match FindCookie(cookies[1..], name)
      case None => None
      case Some(k) => Some(k + 1)
  }

  /** `Request.Cookie`: the first cookie with the name, or none (`NoCookie`). */
  function CookieNamed(cookies: seq<Cookie>, name: string): (r: Option<Cookie>)
    ensures r.None? <==> forall c :: c in cookies ==> c.name != name
    ensures r.Some? ==> r.value in cookies && r.value.name == name
  {
    match FindCookie(cookies, name)
    case None => None
    case Some(k) => Some(cookies[k])
  }

  function Values(h: Header, key: string): seq<string> {
    if key in h then h[key] else []
  }

  /** `Header.Get`: the first value of the key, or the empty string. */
  function HeaderGet(h: Header, key: string): (v: string)
    ensures Values(h, key) != [] ==> v == Values(h, key)[0]
    ensures v == "" <==> Values(h, key) == [] || Values(h, key)[0] == ""
  {
    if Values(h, key) == [] then "" else Values(h, key)[0]
  }

  /** `Header.Add`: appends a value to the key and leaves every other key alone. */
  function HeaderAdd(h: Header, key: string, value: string): (r: Header)
    ensures Values(r, key) == Values(h, key) + [value]
    ensures forall k :: k != key ==> Values(r, k) == Values(h, k)
  {
    h[key := Values(h, key) + [value]]
  }

  /**
   * Adding never replaces what `Header.Get` sees: a value the client
   * already sent stays first, and the added one is seen only when the key
   * had no value.
   */
  lemma AddKeepsFirst(h: Header, key: string, value: string)
    ensures HeaderGet(HeaderAdd(h, key, value), key) ==
      if Values(h, key) == [] then value else HeaderGet(h, key)
  {
    assert (Values(h, key) + [value])[0] == if Values(h, key) == [] then value else Values(h, key)[0];
  }

  /** What a middleware or a handler did with a request. */
  datatype Handled =
      /** `next` is called once, after this user id is added to the header when there is one. */
    | Forwarded(added: Option<string>)
      /** The reply is written, after this cookie is set when there is one; `next` is not called. */
    | Replied(reply: Reply, cookie: Option<Cookie>)
      /** A failed type assertion panics: nothing is written and `next` is not called. */
    | Panicked

  /** The header `next` is given. */
  function HeaderAfter(h: Handled, header: Header, key: string): Header {
    if h.Forwarded? && h.added.Some? then HeaderAdd(header, key, h.added.value) else header
  }

  /**
   * The effects of `h` on the request header, the next handler and the
   * response, each as the new value against the old.
   */
  predicate Applied(h: Handled, key: string, header0: Header, header: Header, served0: seq<Header>, served: seq<Header>,
                    replies0: seq<Reply>, replies: seq<Reply>, cookies0: seq<Cookie>, cookies: seq<Cookie>)
  {
    && header == HeaderAfter(h, header0, key)
    && served == served0 + (if h.Forwarded? then [header] else [])
    && replies == replies0 + (if h.Replied? then [h.reply] else [])
    && cookies == cookies0 + (if h.Replied? && h.cookie.Some? then [h.cookie.value] else [])
  }

  /** A request: its cookies, and its header, which middleware may add to. */
  class Request {
    const cookies: seq<Cookie>
    var header: Header

    constructor(cookies: seq<Cookie>, header: Header)
      ensures this.cookies == cookies && this.header == header
    {
      this.cookies := cookies;
      this.header := header;
    }

    /** `r.Header.Add`. */
    method AddHeader(key: string, value: string)
      modifies this
      ensures header == HeaderAdd(old(header), key, value)
    {
      header := HeaderAdd(header, key, value);
    }
  }

  /** What a handler has written to its `ResponseWriter`. */
  class ResponseWriter {
    var replies: seq<Reply>
    var cookies: seq<Cookie>

    constructor()
      ensures replies == [] && cookies == []
    {
      replies := [];
      cookies := [];
    }

    method Send(reply: Reply)
      modifies this
      ensures replies == old(replies) + [reply] && cookies == old(cookies)
    {
      replies := replies + [reply];
    }

    /** `http.SetCookie`. */
    method SetCookie(c: Cookie)
      modifies this
      ensures cookies == old(cookies) + [c] && replies == old(replies)
    {
      cookies := cookies + [c];
    }
  }

  /** The next handler: what it does is outside the model; it records the header of each request it serves. */
  class Handler {
    var served: seq<Header>

    constructor()
      ensures served == []
    {
      served := [];
    }

    /** `next.ServeHTTP(w, r)`. */
    method ServeHTTP(w: ResponseWriter, r: Request)
      modifies this
      ensures served == old(served) + [r.header]
    {
      served := served + [r.header];
    }
  }
}
