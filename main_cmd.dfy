/** The command-line front end of main.go: its `Split2`, its variant of
    `do_http` (no switches, exit codes instead of return values) and the
    command dispatch over the context store. */
module MainCmd {
  import opened Common
  import opened EnvText
  import opened HeaderKeys
  import opened Headers
  import opened Urls
  import opened Env
  import opened Requests
  import Http

  /** `Split2(s, sep)` (main.go:175-182) for a one-character separator: the
      text before the first `sep` and the text after it, untrimmed ("" when
      there is no `sep`). */
  function Split2(s: string, sep: char): (r: (string, string))
    ensures sep !in s ==> r == (s, "")
    ensures sep in s ==> s == r.0 + [sep] + r.1 && sep !in r.0
  {
    var i := IndexOf(s, sep);
    if i == -1 then (s, "") else (s[..i], s[i + 1..])
  }

  /** Splitting at the first separator gives the two parts back, whatever the second holds. */
  lemma Split2Parts(a: string, sep: char, b: string)
    requires sep !in a
    ensures Split2(a + [sep] + b, sep) == (a, b)
  {
    IndexOfAfter(a, sep, b);
    var s := a + [sep] + b;
    assert s[..|a|] == a && s[|a| + 1..] == b;
  }

  /** The two `Split2`s agree on the first part, and on the second when it has no leading space. */
  lemma Split2Variants(s: string, sep: char)
    ensures Split2(s, sep).0 == Http.Split2(s, sep).0
    ensures |Split2(s, sep).1| == 0 || Split2(s, sep).1[0] != ' ' ==> Split2(s, sep).1 == Http.Split2(s, sep).1
  {
  }

  /** The `Content-Type` of a request with a body (main.go:289-294): the second
      argument, else `application/json`; a header already in the store does not count. */
  function ContentType(args: seq<string>): (ct: string)
    ensures |args| >= 2 ==> ct == args[1]
    ensures |args| < 2 ==> ct == JSON
  {
    if |args| >= 2 then args[1] else JSON
  }

  /** The headers sent: the loaded ones, with `Content-Type` set when there is a body. */
  function RequestHeader(loaded: Header, httpMethod: string, args: seq<string>): Header
  {
    if BodyRequired(httpMethod, args) then Set(loaded, CONTENT_TYPE, ContentType(args)) else loaded
  }

  /** What `do_http` of main.go (main.go:184-368) does on the store `env`. The
      URL built for a relative argument goes to a local that shadows `api_url`
      (main.go:239), so such a request is sent with no URL, the transport
      refuses it, and the command exits 3; only an absolute argument reaches
      the network. Every invocation with a parsable argument, a usable base
      and (when needed) a body is sent. */
  ghost predicate Outcome(httpMethod: string, args: seq<string>, env: Environ, syn: UrlSyntax, io: Io,
                          out: Result<()>, sent: Option<Request>)
  {
    && (out.Exit? ==> out.code in {1, 2, 3})
    && (out == Exit(2) <==> BaseUrlOf(env, syn).Exit?)
    && (BaseUrlOf(env, syn).Exit? ==> sent.None?)
    && (BaseUrlOf(env, syn).Ok? ==>
          var base := BaseUrlOf(env, syn).value;
          && (args == [] ==> out == Exit(1) && sent.None?)
          && (args != [] && syn.parse(args[0]).None? ==> out == Exit(1) && sent.None?)
          && (args != [] && syn.parse(args[0]).Some? ==>
                var arg := syn.parse(args[0]).value;
                && (!IsAbs(arg) && base.None? ==> out == Exit(1) && sent.None?)
                && (IsAbs(arg) || base.Some? ==>
                      && (sent.Some? <==> !BodyRequired(httpMethod, args) || io.stdin.Some?)
                      && (BodyRequired(httpMethod, args) && io.stdin.None? ==> out == Exit(3)))))
    && (sent.None? && out == Exit(3) ==> BodyRequired(httpMethod, args) && io.stdin.None?)
    && (sent.None? ==> out.Exit?)
    && (sent.Some? ==>
          && BaseUrlOf(env, syn).Ok? && args != [] && syn.parse(args[0]).Some?
          && var arg := syn.parse(args[0]).value;
             && sent.value.verb == httpMethod
             && (IsAbs(arg) ==> sent.value.url == Some(arg))
             && (!IsAbs(arg) ==> sent.value.url.None? && out == Exit(3))
             && (sent.value.body.Some? <==> BodyRequired(httpMethod, args))
             && (sent.value.body.Some? ==> sent.value.body == io.stdin)
             && out == (if Send(sent.value, io).None? then Exit(3) else Ok(())))
  }

  /** The headers of a request `do_http` sends: `loaded` is what `get_headers`
      read from `env`, with `Content-Type` when there is a body. */
  ghost predicate SentHeaders(httpMethod: string, args: seq<string>, env: Environ, sent: Option<Request>, loaded: Header)
  {
    sent.Some? ==> HeaderView(env, loaded) && sent.value.header == RequestHeader(loaded, httpMethod, args)
  }

  /** `do_http` of main.go (main.go:184-368) on the store of `ctx`. */
  method DoHttp(httpMethod: string, args: seq<string>, ctx: Context, syn: UrlSyntax, io: Io)
    returns (out: Result<()>, sent: Option<Request>, ghost loaded: Header)
    ensures Outcome(httpMethod, args, ctx.current, syn, io, out, sent)
    ensures SentHeaders(httpMethod, args, ctx.current, sent, loaded)
  {
    loaded := map[];
    // The base URL is read before the argument.
    var baseUrl := BaseUrlOf(ctx.current, syn);
    if baseUrl.Exit? {
      return Exit(2), None, loaded;
    }
    var base := baseUrl.value;
    var headers := ctx.GetHeaders();
    loaded := headers;
    if |args| == 0 {
      return Exit(1), None, loaded;
    }
    // The first argument names the resource.
    var argUrl := syn.parse(args[0]);
    if argUrl.None? {
      return Exit(1), None, loaded;
    }
    var arg := argUrl.value;
    var apiUrl: Option<Url> := None;
    if IsAbs(arg) {
      apiUrl := Some(arg);
    } else {
      if base.None? {
        return Exit(1), None, loaded;
      }
      // The combined URL is bound to a new local, not to `apiUrl`:
      var shadowed := Http.CombineUrl(base.value, arg);
    }
    var header := headers;
    var bodyRequired := BodyRequired(httpMethod, args);
    var body: Option<seq<byte>> := None;
    if bodyRequired {
      if io.stdin.None? {
        return Exit(3), None, loaded;
      }
      body := io.stdin;
      header := Set(header, CONTENT_TYPE, ContentType(args));
    }
    var req := Request(httpMethod, apiUrl, header, body);
    sent := Some(req);
    var resp := Send(req, io);
    if resp.None? {
      return Exit(3), sent, loaded;
    }
    // Decoding, pretty-printing and copy failures only print a message.
    return Ok(()), sent, loaded;
  }

  /** `main` of main.go (main.go:370-489) on a loaded store. `stored` is the text
      written back to the session file, if any, with the key order `order`;
      `view` is the header collection read by `set`, `cleared` the store
      after `reset` removed the headers, and `loaded` the headers read for a
      request. */
  method Dispatch(ctx: Context, argv: seq<string>, syn: UrlSyntax, io: Io)
    returns (out: Result<()>, stored: Option<string>, sent: Option<Request>,
             ghost order: seq<string>, ghost view: Header, ghost cleared: Environ, ghost loaded: Header)
    modifies ctx`current
    ensures stored.Some? ==> Enumerates(order, ctx.current.Keys) && stored.value == Render(ctx.current, order)
    ensures argv == [] ==> out == Exit(1) && stored.None? && ctx.current == old(ctx.current)
    ensures argv != [] ==>
      var verb := ToLower(argv[0]);
      var args := argv[1..];
      && (stored.Some? ==> verb in {"url", "set", "clear", "reset"})
      && (verb == "url" && |args| == 0 ==>
            && stored.None? && ctx.current == old(ctx.current)
            && out == (if BaseUrlOf(old(ctx.current), syn).Exit? then Exit(2) else Ok(())))
      && (verb == "url" && |args| == 1 ==>
            var r := BaseUrlUpdate(old(ctx.current), args[0], syn);
            if r.Ok? then out == Ok(()) && stored.Some? && ctx.current == r.value
            else out == Exit(r.code) && stored.None? && ctx.current == old(ctx.current))
      && (verb == "url" && |args| >= 2 ==> out == Ok(()) && stored.None? && ctx.current == old(ctx.current))
      && (verb == "env" ==>
            && stored.None? && ctx.current == old(ctx.current)
            && out == (if BaseUrlOf(old(ctx.current), syn).Exit? then Exit(2) else Ok(())))
      && (verb == "list" ==> out == Ok(()) && stored.None? && ctx.current == old(ctx.current))
      && (verb == "set" && |args| == 2 ==>
            && HeaderView(old(ctx.current), view)
            && Replaced(old(ctx.current), Set(view, args[0], args[1]), ctx.current)
            && out == Ok(()) && stored.Some?)
      && (verb == "set" && |args| == 1 ==>
            && HeaderView(old(ctx.current), view)
            && Replaced(old(ctx.current), view - {args[0]}, ctx.current)
            && out == Ok(()) && stored.Some?)
      && (verb == "set" && |args| != 1 && |args| != 2 ==>
            out == Exit(1) && stored.None? && ctx.current == old(ctx.current))
      && (verb == "clear" ==> Replaced(old(ctx.current), map[], ctx.current) && out == Ok(()) && stored.Some?)
      && (verb == "reset" ==>
            && Replaced(old(ctx.current), map[], cleared)
            && var r := BaseUrlUpdate(cleared, "", syn);
               if r.Ok? then out == Ok(()) && stored.Some? && ctx.current == r.value
               else out == Exit(r.code) && stored.None?)
      && (verb == "reset" && ParsesEmptyAsRelative(syn) ==> out == Exit(2) && stored.None?)
      && (verb !in {"url", "env", "list", "set", "clear", "reset"} ==>
            && stored.None? && ctx.current == old(ctx.current)
            && Outcome(ToUpper(argv[0]), args, old(ctx.current), syn, io, out, sent)
            && SentHeaders(ToUpper(argv[0]), args, old(ctx.current), sent, loaded))
      && (sent.Some? ==> verb !in {"url", "env", "list", "set", "clear", "reset"})
  {
    stored, sent, order, view, cleared, loaded := None, None, [], map[], map[], map[];
    if |argv| == 0 {
      // Usage text.
      return Exit(1), stored, sent, order, view, cleared, loaded;
    }
    var cmd := argv[0];
    var args := argv[1..];
    var verb := ToLower(cmd);
    if verb == "url" {
      if |args| == 0 {
        var baseUrl := BaseUrlOf(ctx.current, syn);
        if baseUrl.Exit? {
          return Exit(2), stored, sent, order, view, cleared, loaded;
        }
      } else if |args| == 1 {
        var r := ctx.SetBaseUrl(args[0], syn);
        if r.Exit? {
          return Exit(r.code), stored, sent, order, view, cleared, loaded;
        }
        var text;
        text, order := ctx.Store();
        stored := Some(text);
      }
    } else if verb == "env" {
      var baseUrl := BaseUrlOf(ctx.current, syn);
      if baseUrl.Exit? {
        return Exit(2), stored, sent, order, view, cleared, loaded;
      }
    } else if verb == "list" {
    } else if verb == "set" {
      var headers := ctx.GetHeaders();
      view := headers;
      if |args| == 2 {
        // Two arguments: name and value.
        headers := Set(headers, args[0], args[1]);
      } else if |args| == 1 {
        headers := headers - {args[0]};
      } else {
        return Exit(1), stored, sent, order, view, cleared, loaded;
      }
      ctx.SetHeaders(headers);
      var text;
      text, order := ctx.Store();
      stored := Some(text);
    } else if verb == "clear" {
      ctx.SetHeaders(map[]);
      var text;
      text, order := ctx.Store();
      stored := Some(text);
    } else if verb == "reset" {
      ctx.SetHeaders(map[]);
      cleared := ctx.current;
      var r := ctx.SetBaseUrl("", syn);
      if r.Exit? {
        return Exit(r.code), stored, sent, order, view, cleared, loaded;
      }
      var text;
      text, order := ctx.Store();
      stored := Some(text);
    } else {
      // Any other verb is a request method.
      out, sent, loaded := DoHttp(ToUpper(cmd), args, ctx, syn, io);
      return out, stored, sent, order, view, cleared, loaded;
    }
    return Ok(()), stored, sent, order, view, cleared, loaded;
  }

  /** `reset` hands "" to `set_base_url`: "" is not `-`, and it parses as a
      URL that is not absolute, so it is rejected with exit 2. */
  lemma ResetRejected(env: Environ, syn: UrlSyntax)
    requires ParsesEmptyAsRelative(syn)
    ensures BaseUrlUpdate(env, "", syn) == Exit(2)
  {
  }

  /** What `reset` is meant to do, passing `-`: the store keeps no header and no base URL. */
  lemma ResetIntended(env: Environ, cleared: Environ, syn: UrlSyntax)
    requires Replaced(env, map[], cleared)
    ensures BaseUrlUpdate(cleared, "-", syn).Ok?
    ensures var r := BaseUrlUpdate(cleared, "-", syn).value;
      "URL" !in r && forall key :: key in r ==> !IsHeaderKey(key)
  {
    ClearRemovesHeaders(env, cleared);
  }
}
