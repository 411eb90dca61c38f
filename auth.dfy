/** Authentication for the chat (chat/auth.go): the cookie gate in front of
    the chat page, and the login handler that dispatches on the path
    /auth/{action}/{provider}. The OAuth library is an input: looking a
    provider up, asking it for the begin-auth URL, completing the
    authentication and fetching the user each either yield a value or fail
    with an error text. The cookie value is kept as the map of user data it
    encodes. */
module Auth {
  import opened Text
  import ChatClient
  import Messages

  const StatusTemporaryRedirect: nat := 307
  const StatusBadRequest: nat := 400
  const StatusNotFound: nat := 404
  const StatusInternalServerError: nat := 500
  /** The status a body write implies when no header was written first. */
  const StatusOK: nat := 200

  /** A cookie as http.SetCookie sends it. */
  datatype Cookie = Cookie(name: string, value: map<string, string>, path: string)

  /** What the server has sent so far: the status (0 while none has been
      written), the headers that went out with it, the body and the cookies. */
  datatype Response = Response(status: nat, header: map<string, string>, body: string, cookies: seq<Cookie>)

  const Unsent: Response := Response(0, map[], "", [])

  /** Header().Set: only effective before the status line is written. */
  function SetHeader(r: Response, key: string, value: string): Response
  {
    if r.status == 0 then r.(header := r.header[key := value]) else r
  }

  /** WriteHeader: the first status written wins; later ones are ignored. */
  function WriteHeader(r: Response, code: nat): Response
    requires code != 0
  {
    if r.status == 0 then r.(status := code) else r
  }

  /** Write: a body written before any status implies 200 OK. */
  function WriteBody(r: Response, s: string): Response
  {
    WriteHeader(r, StatusOK).(body := r.body + s)
  }

  /** http.SetCookie: a Set-Cookie header, so also only before the status. */
  function AddCookie(r: Response, c: Cookie): Response
  {
    if r.status == 0 then r.(cookies := r.cookies + [c]) else r
  }

  /** The http.ResponseWriter a handler answers through. */
  class ResponseWriter {
    var response: Response

    constructor ()
      ensures response == Unsent
    {
      response := Unsent;
    }

    method Set(key: string, value: string)
      modifies this
      ensures response == SetHeader(old(response), key, value)
    {
      response := SetHeader(response, key, value);
    }

    method WriteStatus(code: nat)
      requires code != 0
      modifies this
      ensures response == WriteHeader(old(response), code)
    {
      response := WriteHeader(response, code);
    }

    method Write(s: string)
      modifies this
      ensures response == WriteBody(old(response), s)
    {
      response := WriteBody(response, s);
    }

    method SetCookie(c: Cookie)
      modifies this
      ensures response == AddCookie(old(response), c)
    {
      response := AddCookie(response, c);
    }
  }

  /** http.Error: plain-text headers, the status, and the message with a
      newline. */
  method Error(w: ResponseWriter, msg: string, code: nat)
    requires code != 0
    modifies w
    ensures w.response == ErrorResponse(old(w.response), msg, code)
  {
    w.Set("Content-Type", "text/plain; charset=utf-8");
    w.Set("X-Content-Type-Options", "nosniff");
    w.WriteStatus(code);
    w.Write(msg + "\n");
  }

  function ErrorResponse(r: Response, msg: string, code: nat): Response
    requires code != 0
  {
    var h := SetHeader(SetHeader(r, "Content-Type", "text/plain; charset=utf-8"), "X-Content-Type-Options", "nosniff");
    WriteBody(WriteHeader(h, code), msg + "\n")
  }

  /** A redirect: the Location header, then 307. */
  function RedirectResponse(r: Response, location: string): Response
  {
    WriteHeader(SetHeader(r, "Location", location), StatusTemporaryRedirect)
  }

  /** On a response nothing has been written to, an error sends exactly its
      status and its message, and a redirect exactly 307 and its location. */
  lemma FreshResponses(msg: string, code: nat, location: string)
    requires code != 0
    ensures ErrorResponse(Unsent, msg, code).status == code
    ensures ErrorResponse(Unsent, msg, code).body == msg + "\n"
    ensures ErrorResponse(Unsent, msg, code).header["Content-Type"] == "text/plain; charset=utf-8"
    ensures RedirectResponse(Unsent, location).status == StatusTemporaryRedirect
    ensures RedirectResponse(Unsent, location).header == map["Location" := location]
    ensures RedirectResponse(Unsent, location).body == ""
  {
  }

  /** Once a status has gone out, nothing a handler does changes the headers
      or the status that were sent. */
  lemma SentIsFinal(r: Response, key: string, value: string, code: nat, s: string, c: Cookie)
    requires r.status != 0 && code != 0
    ensures SetHeader(r, key, value) == r && WriteHeader(r, code) == r && AddCookie(r, c) == r
    ensures WriteBody(r, s) == r.(body := r.body + s)
  {
  }

  // ---------------------------------------------------------------------------
  // The cookie gate

  /** What r.Cookie("auth") yields. */
  datatype CookieLookup = Found(value: string) | NoCookie | CookieError(err: string)

  /** The wrapped handler (the chat page). What it writes is not part of this
      model; it records how many times it was asked to serve. */
  class Handler {
    var served: nat

    constructor ()
      ensures served == 0
    {
      served := 0;
    }

    method ServeHTTP(w: ResponseWriter)
      modifies this
      ensures served == old(served) + 1
    {
      served := served + 1;
    }
  }

  /** authHandler: a handler that serves `next` only to authenticated users. */
  class AuthHandler {
    const next: Handler

    constructor (next: Handler)
      ensures this.next == next
    {
      this.next := next;
    }

    /** Without the auth cookie, redirect to /login; on any other cookie error,
        fail with 500; with the cookie, serve the wrapped handler once. */
    method ServeHTTP(w: ResponseWriter, cookie: CookieLookup)
      modifies w, next
      ensures cookie.NoCookie? ==>
        w.response == RedirectResponse(old(w.response), "/login") && next.served == old(next.served)
      ensures cookie.CookieError? ==>
        w.response == ErrorResponse(old(w.response), cookie.err, StatusInternalServerError) && next.served == old(next.served)
      ensures cookie.Found? ==>
        w.response == old(w.response) && next.served == old(next.served) + 1
    {
      match cookie
      case NoCookie =>
        w.Set("Location", "/login");
        w.WriteStatus(StatusTemporaryRedirect);
      case CookieError(err) =>
        Error(w, err, StatusInternalServerError);
      case Found(_) =>
        next.ServeHTTP(w);
    }
  }

  /** MustAuth: wrap a handler in the cookie gate. */
  method MustAuth(handler: Handler) returns (h: AuthHandler)
    ensures fresh(h) && h.next == handler
  {
    h := new AuthHandler(handler);
  }

  // ---------------------------------------------------------------------------
  // The login handler

  /** The result of a call into the OAuth library. */
  datatype Outcome<T> = Ok(value: T) | Fail(err: string)

  /** A signed-in user as the provider reports it. */
  datatype User = User(name: string, avatarURL: string)

  /** A provider as the handler sees it: how it prints with %s, and what each
      of its calls returns for this request. */
  datatype Provider = Provider(
    display: string,
    beginAuthURL: Outcome<string>,
    completeAuth: Outcome<()>,
    getUser: Outcome<User>)

  /** Action and provider name: the third and fourth of exactly four
      "/"-separated segments (the path starts with "/", so the first is
      empty); anything else gives two empty strings. */
  function ParseAuthPath(path: string): (r: (string, string))
    ensures multiset(path)['/'] != 3 ==> r == ("", "")
  {
    SplitCount(path, '/');
    var segs := Split(path, '/');
    if |segs| == 4 then (segs[2], segs[3]) else ("", "")
  }

  /** /{x}/{action}/{provider}, each part free of "/", parses to exactly that
      action and provider. */
  lemma ParseAuthPathOf(x: string, action: string, provider: string)
    requires '/' !in x && '/' !in action && '/' !in provider
    ensures ParseAuthPath("/" + x + "/" + action + "/" + provider) == (action, provider)
  {
    var t3 := action + ['/'] + provider;
    SplitAround(action, provider, '/');
    SplitWithoutSeparator(action, '/');
    SplitWithoutSeparator(provider, '/');
    assert Split(t3, '/') == [action, provider];
    var t2 := x + ['/'] + t3;
    SplitAround(x, t3, '/');
    SplitWithoutSeparator(x, '/');
    assert Split(t2, '/') == [x, action, provider];
    var t1 := [] + ['/'] + t2;
    SplitAround([], t2, '/');
    SplitWithoutSeparator([], '/');
    assert Split(t1, '/') == ["", x, action, provider];
    var front := "/" + x + "/";
    Assoc(front + action, "/", provider);
    Assoc(front, action, "/" + provider);
    Assoc(action, "/", provider);
    Assoc("/" + x, "/", t3);
    Assoc("/", x, "/" + t3);
    Assoc(x, "/", t3);
    assert [] + ['/'] == "/";
  }

  /** How the login handler answers. */
  datatype Answer =
    | Redirect(location: string)
    | Failure(code: nat, msg: string)
    | SignedIn(cookie: Cookie)
    | Unsupported(action: string)

  /** The 400 message for a provider that cannot be found, naming it. */
  function MissingProviderMessage(name: string, err: string): string
  {
    "Error when trying to get provider " + name + ": " + err
  }

  /** The same message as the source builds it: the format argument is the
      provider variable declared by that very statement, which shadows the
      name and is nil when the lookup fails, and %s prints a nil value as
      "%!s(<nil>)". */
  function MissingProviderMessageAsWritten(name: string, err: string): string
  {
    "Error when trying to get provider %!s(<nil>): " + err
  }


  /** The corrected message tells providers apart: two names give the same
      message only if they are the same name. */
  lemma MessageNamesProvider(n1: string, n2: string, err: string)
    ensures MissingProviderMessage(n1, err) == MissingProviderMessage(n2, err) ==> n1 == n2
  {
    var pre := "Error when trying to get provider ";
    var post := ": " + err;
    if MissingProviderMessage(n1, err) == MissingProviderMessage(n2, err) {
      var m := MissingProviderMessage(n1, err);
      assert m == pre + n1 + post && m == pre + n2 + post;
      assert |n1| == |n2|;
      assert n1 == m[|pre|..|pre| + |n1|];
      assert n2 == m[|pre|..|pre| + |n2|];
    }
  }

  /** The user data the auth cookie carries: exactly a name and an avatar. */
  function UserData(u: User): (d: map<string, string>)
    ensures d.Keys == {"name", "avatar_url"}
    ensures d["name"] == u.name && d["avatar_url"] == u.avatarURL
  {
    map["name" := u.name, "avatar_url" := u.avatarURL]
  }

  /** loginHandler's decision. `registry` is gomniauth.Provider. */
  function LoginAnswer(path: string, registry: string -> Outcome<Provider>): (a: Answer)
    ensures ParseAuthPath(path).0 !in {"login", "callback"} <==> a == Unsupported(ParseAuthPath(path).0)
    ensures a.Redirect? <==>
      && ParseAuthPath(path).0 == "login"
      && registry(ParseAuthPath(path).1).Ok?
      && registry(ParseAuthPath(path).1).value.beginAuthURL.Ok?
    ensures a.Redirect? ==> a.location == registry(ParseAuthPath(path).1).value.beginAuthURL.value
    ensures a.SignedIn? <==>
      && ParseAuthPath(path).0 == "callback"
      && registry(ParseAuthPath(path).1).Ok?
      && registry(ParseAuthPath(path).1).value.completeAuth.Ok?
      && registry(ParseAuthPath(path).1).value.getUser.Ok?
    ensures a.SignedIn? ==>
      a.cookie == Cookie("auth", UserData(registry(ParseAuthPath(path).1).value.getUser.value), "/")
    ensures a.Failure? && a.code == StatusBadRequest <==>
      ParseAuthPath(path).0 in {"login", "callback"} && registry(ParseAuthPath(path).1).Fail?
    ensures a.Failure? ==> a.code in {StatusBadRequest, StatusInternalServerError}
  {
    var (action, name) := ParseAuthPath(path);
    if action == "login" then
      match registry(name)
      case Fail(err) => Failure(StatusBadRequest, MissingProviderMessageAsWritten(name, err))
      case Ok(p) =>
        match p.beginAuthURL
        case Fail(err) => Failure(StatusInternalServerError, "Error when trying to GetBeginAuthUrl for " + p.display + ": " + err)
        case Ok(url) => Redirect(url)
    else if action == "callback" then
      match registry(name)
      case Fail(err) => Failure(StatusBadRequest, MissingProviderMessageAsWritten(name, err))
      case Ok(p) =>
        match p.completeAuth
        case Fail(err) => Failure(StatusInternalServerError, "Error when trying to complete auth for " + p.display + ": " + err)
        case Ok(_) =>
          match p.getUser
          case Fail(err) => Failure(StatusInternalServerError, "Error when trying to get user from " + p.display + ": " + err)
          case Ok(u) => SignedIn(Cookie("auth", UserData(u), "/"))
    else Unsupported(action)
  }

  /** How the handler writes each answer. On a response nothing has been
      sent on yet: a redirect sends 307 and its location; a failure sends its
      status, plain-text headers and the message with a newline; a sign-in
      sets the cookie and redirects to /chat; an unsupported action sends 404
      and names the action in the body. Once a status has been sent, only the
      body can still grow. */
  function Render(r: Response, a: Answer): (out: Response)
    ensures r.status == 0 && a.Redirect? ==>
      && out.status == StatusTemporaryRedirect && out.header == r.header["Location" := a.location]
      && out.body == r.body && out.cookies == r.cookies
    ensures r.status == 0 && a.Failure? && a.code != 0 ==>
      && out.status == a.code && out.body == r.body + a.msg + "\n" && out.cookies == r.cookies
      && out.header == r.header["Content-Type" := "text/plain; charset=utf-8"]["X-Content-Type-Options" := "nosniff"]
    ensures r.status == 0 && a.SignedIn? ==>
      && out.status == StatusTemporaryRedirect && out.header == r.header["Location" := "/chat"]
      && out.body == r.body && out.cookies == r.cookies + [a.cookie]
    ensures r.status == 0 && a.Unsupported? ==>
      && out.status == StatusNotFound && out.header == r.header && out.cookies == r.cookies
      && out.body == r.body + "Auth action " + a.action + " not supported"
    ensures r.status != 0 ==>
      && out.status == r.status && out.header == r.header && out.cookies == r.cookies
      && r.body <= out.body
  {
    match a
    case Redirect(url) => RedirectResponse(r, url)
    case Failure(code, msg) => if code == 0 then r else ErrorResponse(r, msg, code)
    case SignedIn(c) => RedirectResponse(AddCookie(r, c), "/chat")
    case Unsupported(action) => WriteBody(WriteHeader(r, StatusNotFound), "Auth action " + action + " not supported")
  }

  /** loginHandler. */
  method LoginHandler(w: ResponseWriter, path: string, registry: string -> Outcome<Provider>)
    modifies w
    ensures w.response == Render(old(w.response), LoginAnswer(path, registry))
  {
    var (action, name) := ParseAuthPath(path);
    if action == "login" {
      var found := registry(name);
      if found.Fail? {
        Error(w, MissingProviderMessageAsWritten(name, found.err), StatusBadRequest);
        return;
      }
      var provider := found.value;
      if provider.beginAuthURL.Fail? {
        Error(w, "Error when trying to GetBeginAuthUrl for " + provider.display + ": " + provider.beginAuthURL.err, StatusInternalServerError);
        return;
      }
      w.Set("Location", provider.beginAuthURL.value);
      w.WriteStatus(StatusTemporaryRedirect);
    } else if action == "callback" {
      var found := registry(name);
      if found.Fail? {
        Error(w, MissingProviderMessageAsWritten(name, found.err), StatusBadRequest);
        return;
      }
      var provider := found.value;
      if provider.completeAuth.Fail? {
        Error(w, "Error when trying to complete auth for " + provider.display + ": " + provider.completeAuth.err, StatusInternalServerError);
        return;
      }
      if provider.getUser.Fail? {
        Error(w, "Error when trying to get user from " + provider.display + ": " + provider.getUser.err, StatusInternalServerError);
        return;
      }
      w.SetCookie(Cookie("auth", UserData(provider.getUser.value), "/"));
      w.Set("Location", "/chat");
      w.WriteStatus(StatusTemporaryRedirect);
    } else {
      w.WriteStatus(StatusNotFound);
      w.Write("Auth action " + action + " not supported");
    }
  }

  /** What a fresh response holds after each answer: 404 with the action named
      in the body; the error status with its message; a 307 to the provider's
      URL; or the auth cookie (path "/") and a 307 to /chat. */
  lemma LoginResponses(path: string, registry: string -> Outcome<Provider>)
    ensures var a := LoginAnswer(path, registry);
      var r := Render(Unsent, a);
      && (a.Unsupported? ==> r.status == StatusNotFound && r.body == "Auth action " + a.action + " not supported")
      && (a.Failure? ==> r.status == a.code && r.body == a.msg + "\n")
      && (a.Redirect? ==> r.status == StatusTemporaryRedirect && r.header["Location"] == a.location && r.cookies == [])
      && (a.SignedIn? ==> r.status == StatusTemporaryRedirect && r.header["Location"] == "/chat" && r.cookies == [a.cookie]
                          && a.cookie.name == "auth" && a.cookie.path == "/")
  {
  }

  /** The cookie a callback sets is what the chat later stamps on the user's
      messages: their provider name always, and their provider avatar. */
  lemma CookieStampsUser(u: User, m: Messages.Message, now: Messages.Timestamp)
    ensures "name" in UserData(u)
    ensures ChatClient.Stamp(m, UserData(u), now).name == u.name
    ensures ChatClient.Stamp(m, UserData(u), now).avatarURL == u.avatarURL
  {
  }

  /** An unknown provider is always a 400, for login and callback alike,
      whatever the first segment; the message carries the lookup error, and
      in place of the provider's name the "%!s(<nil>)" that %s makes of the
      nil provider. */
  lemma UnknownProvider(x: string, action: string, name: string, registry: string -> Outcome<Provider>)
    requires action in {"login", "callback"} && '/' !in x && '/' !in name
    requires registry(name).Fail?
    ensures LoginAnswer("/" + x + "/" + action + "/" + name, registry)
      == Failure(StatusBadRequest, MissingProviderMessageAsWritten(name, registry(name).err))
  {
    var path := "/" + x + "/" + action + "/" + name;
    ParseAuthPathOf(x, action, name);
    assert ParseAuthPath(path) == (action, name);
    assert registry(ParseAuthPath(path).1) == Fail(registry(name).err);
  }

  /** As written, the 400 answer does not tell providers apart: two unknown
      providers whose lookups fail with the same error get the same answer,
      and the message is the same whatever name is passed in. */
  lemma AsWrittenOmitsProvider(x: string, action: string, n1: string, n2: string, registry: string -> Outcome<Provider>)
    requires action in {"login", "callback"} && '/' !in x && '/' !in n1 && '/' !in n2
    requires registry(n1).Fail? && registry(n2).Fail? && registry(n1).err == registry(n2).err
    ensures LoginAnswer("/" + x + "/" + action + "/" + n1, registry) == LoginAnswer("/" + x + "/" + action + "/" + n2, registry)
    ensures forall err :: MissingProviderMessageAsWritten(n1, err) == MissingProviderMessageAsWritten(n2, err)
  {
    UnknownProvider(x, action, n1, registry);
    UnknownProvider(x, action, n2, registry);
  }

  /** loginHandler's decision as its authors evidently meant it: the 400 for
      an unknown provider names the provider that was asked for; every other
      answer is the one the code gives. */
  function LoginAnswerIntended(path: string, registry: string -> Outcome<Provider>): (a: Answer)
    ensures ParseAuthPath(path).0 in {"login", "callback"} && registry(ParseAuthPath(path).1).Fail? ==>
      a == Failure(StatusBadRequest, MissingProviderMessage(ParseAuthPath(path).1, registry(ParseAuthPath(path).1).err))
    ensures !(ParseAuthPath(path).0 in {"login", "callback"} && registry(ParseAuthPath(path).1).Fail?) ==>
      a == LoginAnswer(path, registry)
  {
    var name := ParseAuthPath(path).1;
    var written := LoginAnswer(path, registry);
    if written.Failure? && written.code == StatusBadRequest then
      Failure(StatusBadRequest, MissingProviderMessage(name, registry(name).err))
    else
      written
  }

  /** The intended 400 answer tells providers apart: two unknown providers
      whose lookups fail with the same error get the same answer only if they
      are the same provider. */
  lemma IntendedNamesProvider(x: string, action: string, n1: string, n2: string, registry: string -> Outcome<Provider>)
    requires action in {"login", "callback"} && '/' !in x && '/' !in n1 && '/' !in n2
    requires registry(n1).Fail? && registry(n2).Fail? && registry(n1).err == registry(n2).err
    ensures (LoginAnswerIntended("/" + x + "/" + action + "/" + n1, registry)
             == LoginAnswerIntended("/" + x + "/" + action + "/" + n2, registry)) ==> n1 == n2
  {
    ParseAuthPathOf(x, action, n1);
    ParseAuthPathOf(x, action, n2);
    MessageNamesProvider(n1, n2, registry(n1).err);
  }
}
