/** The older front end of cli/main.go: a base URL is mandatory, every request
    URL is the base combined with the argument (whose query replaces the
    base's), and the verbs are a fixed list. */
module Cli {
  import opened Common
  import opened EnvText
  import opened HeaderKeys
  import opened Headers
  import opened Urls
  import opened Paths
  import opened Env
  import opened Requests
  import Http

  /** `get_abs_url` (cli/main.go:130-149): unlike `get_base_url`, a missing or
      empty `URL` is fatal too; every failure exits 2. */
  function GetAbsUrl(env: Environ, syn: UrlSyntax): (r: Result<Url>)
    ensures r.Exit? ==> r.code == 2
    ensures r.Ok? <==> BaseUrlOf(env, syn).Ok? && BaseUrlOf(env, syn).value.Some?
    ensures r.Ok? ==> BaseUrlOf(env, syn).value == Some(r.value) && IsAbs(r.value)
  {
    var text := if "URL" in env then env["URL"] else "";
    if text == "" then Exit(2)
    else match syn.parse(text)
      case None => Exit(2)
      case Some(u) => if !IsAbs(u) then Exit(2) else Ok(u)
  }

  /** What `set_abs_url(u)` does to the store (cli/main.go:151-168): None
      removes `URL`; a URL that is not absolute exits 2; an absolute one is
      stored in its printed form. */
  function AbsUrlUpdate(env: Environ, u: Option<Url>, syn: UrlSyntax): (r: Result<Environ>)
    ensures r.Ok? ==> forall k :: k != "URL" ==> (k in r.value <==> k in env) && (k in r.value ==> r.value[k] == env[k])
    ensures u.None? ==> r.Ok? && "URL" !in r.value
    ensures r.Exit? <==> u.Some? && !IsAbs(u.value)
    ensures r.Exit? ==> r.code == 2
    ensures r.Ok? && u.Some? ==> Holds(r.value, "URL", syn.render(u.value))
  {
    match u
    case None => Ok(Assign(env, "URL", ""))
    case Some(v) => if !IsAbs(v) then Exit(2) else Ok(Assign(env, "URL", syn.render(v)))
  }

  /** A URL stored by `set_abs_url` is read back by `get_abs_url`, when the
      syntax prints and reads it faithfully. */
  lemma SetThenGetAbsUrl(env: Environ, u: Url, syn: UrlSyntax)
    requires IsAbs(u) && RoundTrips(syn, u)
    ensures AbsUrlUpdate(env, Some(u), syn).Ok?
    ensures GetAbsUrl(AbsUrlUpdate(env, Some(u), syn).value, syn) == Ok(u)
  {
  }

  /** `set_abs_url` (cli/main.go:151-168). */
  method SetAbsUrl(ctx: Context, u: Option<Url>, syn: UrlSyntax) returns (r: Result<()>)
    modifies ctx`current
    ensures AbsUrlUpdate(old(ctx.current), u, syn).Ok? ==>
              r == Ok(()) && ctx.current == AbsUrlUpdate(old(ctx.current), u, syn).value
    ensures AbsUrlUpdate(old(ctx.current), u, syn).Exit? ==>
              r == Exit(2) && ctx.current == old(ctx.current)
  {
    var newValue := "";
    if u.Some? {
      if !IsAbs(u.value) {
        return Exit(2);
      }
      newValue := syn.render(u.value);
    }
    ctx.SetEnv("URL", newValue);
    return Ok(());
  }

  /** `u` combines the base with the argument as cli/main.go:190-204 does:
      scheme, host and user of the base; the joined and cleaned path; the
      argument's query alone; the argument's fragment. */
  ghost predicate Combines(base: Url, rel: Url, u: Url)
  {
    && u.scheme == base.scheme && u.host == base.host && u.user == base.user
    && u.path == JoinPath(Http.BasePath(base), rel.path)
    && u.query == rel.query
    && u.fragment == rel.fragment
  }

  /** The base query is dropped: a key only the base has is not in the request URL. */
  lemma BaseQueryDropped(base: Url, rel: Url, u: Url, k: string)
    requires Combines(base, rel, u)
    requires k in base.query && k !in rel.query
    ensures k !in u.query
  {
  }

  /** The two front ends build the same URL when the base has no query. */
  lemma CombinesAgree(base: Url, rel: Url, u: Url)
    requires base.query == map[]
    requires Combines(base, rel, u)
    ensures Http.Combines(base, rel, u)
  {
    assert base.query.Keys + rel.query.Keys == rel.query.Keys;
  }

  /** Building the request URL (cli/main.go:190-204). */
  method CombineUrl(base: Url, rel: Url) returns (u: Url)
    ensures Combines(base, rel, u)
  {
    // An empty base path joins as the root.
    var basePath := base.path;
    if basePath == "" {
      basePath := "/";
    }
    u := Url(base.scheme, base.user, base.host, JoinPath(basePath, rel.path), rel.query, rel.fragment);
  }

  /** The `Content-Type` of a request with a body (cli/main.go:235-240). */
  function ContentType(args: seq<string>): (ct: string)
    ensures |args| >= 2 ==> ct == args[1]
    ensures |args| < 2 ==> ct == JSON
  {
    if |args| >= 2 then args[1] else JSON
  }

  /** What `do_http` of cli/main.go (cli/main.go:170-279) does on the store
      `env`: the base URL is required before the argument is even looked at,
      and the argument is always combined with it, absolute or not. Every
      invocation with a base, a parsable argument and (when needed) a body
      is sent. */
  ghost predicate Outcome(httpMethod: string, bodyRequired: bool, args: seq<string>, env: Environ, syn: UrlSyntax, io: Io,
                          out: Result<()>, sent: Option<Request>)
  {
    && (out.Exit? ==> out.code in {1, 2, 3})
    && (out == Exit(2) <==> GetAbsUrl(env, syn).Exit?)
    && (GetAbsUrl(env, syn).Exit? ==> sent.None?)
    && (GetAbsUrl(env, syn).Ok? ==>
          && (args == [] ==> out == Exit(1) && sent.None?)
          && (args != [] && syn.parse(args[0]).None? ==> out == Exit(1) && sent.None?)
          && (args != [] && syn.parse(args[0]).Some? ==>
                && (sent.Some? <==> !bodyRequired || io.stdin.Some?)
                && (bodyRequired && io.stdin.None? ==> out == Exit(3))))
    && (sent.None? && out == Exit(3) ==> bodyRequired && io.stdin.None?)
    && (sent.None? ==> out.Exit?)
    && (sent.Some? ==>
          && GetAbsUrl(env, syn).Ok? && args != [] && syn.parse(args[0]).Some?
          && sent.value.verb == httpMethod
          && sent.value.url.Some?
          && Combines(GetAbsUrl(env, syn).value, syn.parse(args[0]).value, sent.value.url.value)
          && (sent.value.body.Some? <==> bodyRequired)
          && (sent.value.body.Some? ==> sent.value.body == io.stdin)
          && out == (if io.reply.None? then Exit(3) else Ok(())))
  }

  /** The headers of a request `do_http` sends: `loaded` is what `get_headers`
      read from `env`, with `Content-Type` when there is a body. */
  ghost predicate SentHeaders(bodyRequired: bool, args: seq<string>, env: Environ, sent: Option<Request>, loaded: Header)
  {
    sent.Some? ==>
      HeaderView(env, loaded) && sent.value.header == (if bodyRequired then Set(loaded, CONTENT_TYPE, ContentType(args)) else loaded)
  }

  /** `do_http` of cli/main.go (cli/main.go:170-279) on the store of `ctx`. */
  method DoHttp(httpMethod: string, bodyRequired: bool, args: seq<string>, ctx: Context, syn: UrlSyntax, io: Io)
    returns (out: Result<()>, sent: Option<Request>, ghost loaded: Header)
    ensures Outcome(httpMethod, bodyRequired, args, ctx.current, syn, io, out, sent)
    ensures SentHeaders(bodyRequired, args, ctx.current, sent, loaded)
  {
    loaded := map[];
    // The base URL is read before the argument.
    var baseUrl := GetAbsUrl(ctx.current, syn);
    if baseUrl.Exit? {
      return Exit(2), None, loaded;
    }
    var base := baseUrl.value;
    var headers := ctx.GetHeaders();
    loaded := headers;
    if |args| == 0 {
      return Exit(1), None, loaded;
    }
    // The first argument names the resource.
    var relUrl := syn.parse(args[0]);
    if relUrl.None? {
      return Exit(1), None, loaded;
    }
    var apiUrl := CombineUrl(base, relUrl.value);
    var header := headers;
    var body: Option<seq<byte>> := None;
    if bodyRequired {
      if io.stdin.None? {
        return Exit(3), None, loaded;
      }
      body := io.stdin;
      header := Set(header, CONTENT_TYPE, ContentType(args));
    }
    var req := Request(httpMethod, Some(apiUrl), header, body);
    sent := Some(req);
    var resp := Send(req, io);
    if resp.None? {
      return Exit(3), sent, loaded;
    }
    // A copy failure only prints a message.
    return Ok(()), sent, loaded;
  }

  /** `main` of cli/main.go (cli/main.go:281-393) on a loaded store; the
      out-parameters are those of the main.go front end, and `loaded` is the
      header collection read for a request. */
  method Dispatch(ctx: Context, argv: seq<string>, syn: UrlSyntax, io: Io)
    returns (out: Result<()>, stored: Option<string>, sent: Option<Request>,
             ghost order: seq<string>, ghost view: Header, ghost loaded: Header)
    modifies ctx`current
    ensures stored.Some? ==> Enumerates(order, ctx.current.Keys) && stored.value == Render(ctx.current, order)
    ensures argv == [] ==> out == Exit(1) && stored.None? && ctx.current == old(ctx.current)
    ensures argv != [] ==>
      var verb := ToLower(argv[0]);
      var args := argv[1..];
      && (stored.Some? ==> verb in {"url", "set", "clear", "reset"})
      && (verb in {"get", "delete", "post", "put"} ==>
            && stored.None? && ctx.current == old(ctx.current)
            && Outcome(ToUpper(argv[0]), verb in {"post", "put"}, args, old(ctx.current), syn, io, out, sent)
            && SentHeaders(verb in {"post", "put"}, args, old(ctx.current), sent, loaded))
      && (verb == "url" && |args| == 0 ==>
            && stored.None? && ctx.current == old(ctx.current)
            && out == (if GetAbsUrl(old(ctx.current), syn).Exit? then Exit(2) else Ok(())))
      && (verb == "url" && |args| == 1 ==>
            if syn.parse(args[0]).None? then out == Exit(1) && stored.None? && ctx.current == old(ctx.current)
            else
              var r := AbsUrlUpdate(old(ctx.current), syn.parse(args[0]), syn);
              if r.Ok? then out == Ok(()) && stored.Some? && ctx.current == r.value
              else out == Exit(2) && stored.None? && ctx.current == old(ctx.current))
      && (verb == "url" && |args| >= 2 ==> out == Ok(()) && stored.None? && ctx.current == old(ctx.current))
      && (verb == "list" ==> out == Ok(()) && stored.None? && ctx.current == old(ctx.current))
      && (verb == "set" ==>
            && HeaderView(old(ctx.current), view)
            && out == Ok(()) && stored.Some?
            && (|args| == 2 ==> Replaced(old(ctx.current), Set(view, args[0], args[1]), ctx.current))
            && (|args| == 1 ==> Replaced(old(ctx.current), view - {args[0]}, ctx.current))
            && (|args| != 1 && |args| != 2 ==> Replaced(old(ctx.current), view, ctx.current)))
      && (verb == "clear" ==> Replaced(old(ctx.current), map[], ctx.current) && out == Ok(()) && stored.Some?)
      && (verb == "reset" ==>
            && out == Ok(()) && stored.Some?
            && "URL" !in ctx.current
            && (forall key :: key in ctx.current ==> !IsHeaderKey(key))
            && (forall key :: key in ctx.current ==> key in old(ctx.current))
            && (forall key :: key in old(ctx.current) && !IsHeaderKey(key) && key != "URL" ==>
                  key in ctx.current && ctx.current[key] == old(ctx.current)[key]))
      && (verb !in {"get", "delete", "post", "put", "url", "reset", "list", "set", "clear"} ==>
            out == Exit(1) && stored.None? && sent.None? && ctx.current == old(ctx.current))
      && (sent.Some? ==> verb in {"get", "delete", "post", "put"})
  {
    stored, sent, order, view, loaded := None, None, [], map[], map[];
    if |argv| == 0 {
      // Usage text.
      return Exit(1), stored, sent, order, view, loaded;
    }
    var cmd := argv[0];
    var args := argv[1..];
    var verb := ToLower(cmd);
    if verb == "get" || verb == "delete" || verb == "post" || verb == "put" {
      var bodyRequired := verb == "post" || verb == "put";
      out, sent, loaded := DoHttp(ToUpper(cmd), bodyRequired, args, ctx, syn, io);
      return out, stored, sent, order, view, loaded;
    } else if verb == "url" {
      if |args| == 0 {
        var baseUrl := GetAbsUrl(ctx.current, syn);
        if baseUrl.Exit? {
          return Exit(2), stored, sent, order, view, loaded;
        }
      } else if |args| == 1 {
        var parsed := syn.parse(args[0]);
        if parsed.None? {
          return Exit(1), stored, sent, order, view, loaded;
        }
        var r := SetAbsUrl(ctx, parsed, syn);
        if r.Exit? {
          return r, stored, sent, order, view, loaded;
        }
        var text;
        text, order := ctx.Store();
        stored := Some(text);
      }
    } else if verb == "reset" {
      ghost var before := ctx.current;
      ctx.SetHeaders(map[]);
      ClearRemovesHeaders(before, ctx.current);
      var r := SetAbsUrl(ctx, None, syn);
      var text;
      text, order := ctx.Store();
      stored := Some(text);
    } else if verb == "list" {
    } else if verb == "set" {
      var headers := ctx.GetHeaders();
      view := headers;
      if |args| == 2 {
        // Two arguments: name and value.
        headers := Set(headers, args[0], args[1]);
      } else if |args| == 1 {
        headers := headers - {args[0]};
      }
      ctx.SetHeaders(headers);
      var text;
      text, order := ctx.Store();
      stored := Some(text);
    } else if verb == "clear" {
      ctx.SetHeaders(map[]);
      var text;
      text, order := ctx.Store();
      stored := Some(text);
    } else {
      return Exit(1), stored, sent, order, view, loaded;
    }
    return Ok(()), stored, sent, order, view, loaded;
  }
}
